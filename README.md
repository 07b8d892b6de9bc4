# Maine SPA scheduling and settlement, modelled in Dafny

This project models the engine behind the Maine SPA Center web application:
the public booking page (which hours a date offers, whether an hour is free,
the pending request it files), the staff agenda (appointments booked by staff,
the payment dialog, the settlement of price, discount and deposit), the
application shell that owns the shared lists of patients, appointments and
employees, the settings screen (blocked dates and hours, opening hours, the
catalog of services and products), the client portal, patient registration
and the patient file, sign-in and password recovery, the staff form with its
save rules, the dashboard's derived views, the navigation frame, and the
texts of the notification service (WhatsApp numbers, quick messages, status
notices, password recovery, payment information).

Each source file is one module. Handlers that replace state held by a screen
are methods of a class with that state as fields: `App.AppState`,
`AdminSettings.SettingsEditor`, `AppointmentManager.Agenda`,
`Login.LoginScreen` and `Layout.PasswordForm`. Their contracts give the
whole new state through a specification function, and lemmas state what
those functions preserve. Pure expressions (filters, lookups, message texts)
are functions. The one loop in the source, the hourly slots of the booking
page, is a method with loop invariants. The validations are chains of checks
in the source and in the model alike.

Shared modules:

- `Wrappers`: Option and Result.
- `Text`: JavaScript string behaviour used by the source.
  - `replace(/\D/g, '')`, ASCII `toLowerCase` and `toUpperCase`;
  - `trim`, `includes`, `split(' ')`;
  - `toString` and `padStart`, `parseInt`;
  - the order of `Array.prototype.sort` on strings.
- `Seqs`: filter, find, a stable sort by a string key, and sums.
- `Calendar`: `YYYY-MM-DD` dates and the weekday `getDay()` gives.
- `Domain`: the records of `types.ts`.
- `Registration`: client codes, file numbers and the ten-digit phone rule,
  which three screens share.

Clock readings, generated ids, `Math.random()`, today's date and the answer
to `confirm()` are parameters. An `alert` is the error value a handler
returns. Money is `real`.

## Model

| member | source | states |
|---|---|---|
| App.PermissionFacts | App.tsx:95-98 | Clients and a missing user hold no permission; `all` grants every permission; a granted permission is `all` or the permission itself. |
| App.CancelById | App.tsx:171-173 | Only the appointment with that id changes, and it becomes cancelled whatever its status was; the length and every other entry stay. |
| App.CancelIdempotent | App.tsx:171-173 | Cancelling the same id twice is the same as cancelling it once. |
| App.ReplaceAppointment | App.tsx:151-153 | The list keeps its length; an entry with the updated id becomes the update and the others stay. |
| App.ReplacePatient | App.tsx:120-124 | The list keeps its length; an entry with the updated id becomes the update and the others stay. |
| App.DeletePatientCascade | App.tsx:137-138 | Exactly the other patients remain, and exactly the appointments of other patients. |
| App.DeleteKeepsNoOrphans | App.tsx:130-138 | If every appointment belonged to a patient on file before the deletion, this still holds after it. |
| App.FindByEmail | App.tsx:156 | A found patient is on the list and has the email, ignoring case, and no earlier patient has it; when none is found, no patient has it. |
| App.MergeBooking | App.tsx:155-164 | The appointment always goes first. A known email files it under that patient's id and name and leaves the patients as they were. An unknown email puts the new patient first. |
| App.MergeKeepsNoOrphans | App.tsx:155-164 | A booking carrying its own patient's id keeps every appointment attached to a patient on file. |
| App.SecondBookingReusesPatient | App.tsx:155-164 | A second booking with the same email, in any case, adds no second patient record. |
| App.ClockIn | App.tsx:215-231 | Exactly one present record with the check-in time is appended to the matching employee's log; other employees are unchanged. |
| App.ClockOut | App.tsx:241-258 | Only the matching employee's records for that date with no check-out get the check-out time; every other record is unchanged. |
| App.ClockOutClosesDay | App.tsx:241-258 | After clocking out with a time, that employee has no record left open on the date. |
| App.ClockOutIdempotent | App.tsx:241-258 | A second clock-out the same day changes nothing, so the first check-out time stays. |
| App.ClockInThenOut | App.tsx:215-258 | A clock-in then a clock-out on the same date leave one more record, closed, with both times. |
| App.AppState.constructor | App.tsx:31-41 | The shell starts with no user, the client role, no selected patient and the given lists. |
| App.AppState.Navigate | App.tsx:104-113 | Settings and Employees without their permission leave the state unchanged. Any other screen is shown and the intent is cleared. The selected patient is kept only for the patient file and the portal. |
| App.AppState.UpdatePatient | App.tsx:120-124 | Without `edit_patients` nothing changes; otherwise the record is replaced by id and becomes the selected patient. |
| App.AppState.AddPatient | App.tsx:126-128 | The new patient is put first. |
| App.AppState.DeletePatient | App.tsx:130-141 | Refused iff `edit_patients` is missing. A confirmed deletion removes the patient and their appointments, clears the selection and shows the patient list. Otherwise nothing changes. |
| App.AppState.AddAppointment | App.tsx:143-149 | Refused iff `edit_appointments` is missing, in which case nothing changes; otherwise exactly the one appointment is put first. |
| App.AppState.UpdateAppointment | App.tsx:151-153 | The appointments become the list with that id replaced; no permission is checked. |
| App.AppState.ClientBooking | App.tsx:155-164 | Patients and appointments become the booking merged in by email. |
| App.AppState.CancelAppointment | App.tsx:171-173 | Appointments become the list with that id cancelled. |
| App.AppState.ClockInEmployee | App.tsx:215-239 | The employees are clocked in. The signed-in user's record is refreshed only when it is the employee who clocked in and that employee is on file; otherwise the signed-in user stays as they were. |
| App.AppState.ClockOutEmployee | App.tsx:241-266 | The employees are clocked out. The signed-in user's record is refreshed only when it is the employee who clocked out and that employee is on file; otherwise the signed-in user stays as they were. |
| AdminSettings.AddBlocked | components/AdminSettings.tsx:229 | An empty or present entry leaves the list alone; otherwise the result holds the old entries plus this one (as a multiset) and is sorted. |
| AdminSettings.RemoveBlocked | components/AdminSettings.tsx:230 | Exactly the entries other than the removed one remain, each as often as before, and the removed entry not at all. |
| AdminSettings.RemoveBlockedAppend | components/AdminSettings.tsx:230-232 | Removing works entry by entry, so the remaining entries keep their order. |
| AdminSettings.AddKeepsBlockList | components/AdminSettings.tsx:229-231 | Adding keeps a list sorted and free of repeats, and a non-empty entry is then listed. |
| AdminSettings.RemoveKeepsBlockList | components/AdminSettings.tsx:230-232 | Removing keeps a list sorted and free of repeats, and the entry is gone. |
| AdminSettings.RemoveAbsent | components/AdminSettings.tsx:230-232 | Removing an entry that is not listed gives back the same list, in the same order. |
| AdminSettings.AddBlockedSlot | components/AdminSettings.tsx:231 | Without both a date and an hour nothing changes; otherwise the `"date hour"` key is listed and no earlier key is lost. |
| AdminSettings.AddBlockedKeeps | components/AdminSettings.tsx:229-231 | Adding never drops an entry already listed. |
| AdminSettings.BlockedSlotUnavailable | components/AdminSettings.tsx:231 | Once an hour is blocked, the booking page reports it as not available, whatever the appointments are. |
| AdminSettings.BlockedDateIsBlocked | components/AdminSettings.tsx:229 | Once a date is blocked, the booking page reports it as blocked. |
| AdminSettings.AddBlockedMember | components/AdminSettings.tsx:229 | A non-empty entry is listed after adding it. |
| AdminSettings.UpdateDay | components/AdminSettings.tsx:228 | Exactly one field of the chosen day changes; the day keeps its weekday and name, and every other day is unchanged. |
| AdminSettings.SettingsEditor.constructor | components/AdminSettings.tsx:40-63 | The local copy starts as the saved configuration, with an empty bank record when none is saved and no pending changes. |
| AdminSettings.SettingsEditor.DayUpdate | components/AdminSettings.tsx:228 | The schedule is updated in one field of one day, changes are flagged, and sorted, repeat-free block lists stay so. |
| AdminSettings.SettingsEditor.AddBlockDate | components/AdminSettings.tsx:229 | An empty or blocked date changes nothing. Otherwise the date is added, the input is cleared and changes are flagged. The block lists stay sorted and free of repeats. |
| AdminSettings.SettingsEditor.RemoveBlockDate | components/AdminSettings.tsx:230 | The date is removed, changes are flagged and the block lists stay sorted and free of repeats. |
| AdminSettings.SettingsEditor.AddBlockSlot | components/AdminSettings.tsx:231 | With both inputs and a new key, the key is added, both inputs are cleared and changes are flagged. Otherwise nothing changes. The block lists stay sorted and free of repeats. |
| AdminSettings.SettingsEditor.RemoveBlockSlot | components/AdminSettings.tsx:232 | The key is removed, changes are flagged and the block lists stay sorted and free of repeats. |
| AdminSettings.SettingsEditor.SaveConfigChanges | components/AdminSettings.tsx:216 | The local copy is handed over to be saved and the changes flag is cleared. |
| AdminSettings.SettingsEditor.CancelConfigChanges | components/AdminSettings.tsx:217-226 | The local copy goes back to the saved configuration, with the empty bank record default, and the flag is cleared. |
| AdminSettings.SaveService | components/AdminSettings.tsx:115-125 | Editing rewrites name, price, duration, description and image only on the matching id. A new service is appended, active. |
| AdminSettings.ToggleService | components/AdminSettings.tsx:126 | `active` flips on the matching id only; the length and every other service stay. |
| AdminSettings.ToggleByIdTwice | components/AdminSettings.tsx:126 | When the flip keeps the id and undoes itself, toggling the same id twice gives back the list. |
| AdminSettings.ToggleServiceTwice | components/AdminSettings.tsx:126 | Toggling the same id twice gives back the catalog. |
| AdminSettings.DeleteService | components/AdminSettings.tsx:127 | Without confirmation nothing changes; with it, exactly the services with other ids remain. |
| AdminSettings.NewServiceIsOffered | components/AdminSettings.tsx:121-122 | A newly saved service is among those the booking page offers. |
| AdminSettings.SaveProduct | components/AdminSettings.tsx:157-186 | Editing rewrites the form's fields, with category and type, on the matching id only. A new product is appended, active. |
| AdminSettings.ToggleProduct | components/AdminSettings.tsx:188-190 | `active` flips on the matching id only. |
| AdminSettings.ToggleProductTwice | components/AdminSettings.tsx:188-190 | Toggling the same id twice gives back the catalog. |
| AdminSettings.DeleteProduct | components/AdminSettings.tsx:192-197 | Without confirmation nothing changes; with it, exactly the products with other ids remain. |
| AdminSettings.FilteredProducts | components/AdminSettings.tsx:431 | Exactly the products of the tab's type are listed, with a product without a type counted as retail. |
| AdminSettings.TabsPartition | components/AdminSettings.tsx:431 | Every product is listed under exactly one of the two tabs. |
| AppointmentManager.FindItemPrice | components/AppointmentManager.tsx:82-90 | The first service with the name sets the price. Otherwise the first product with the name does. Otherwise the first promotion with that title does, as 0 when it sets no price. Failing all three, the price is 0. |
| AppointmentManager.Settle | components/AppointmentManager.tsx:172-175 | The total is the price or 0. The final price is the total less the discount percentage. A new client's deposit is a quarter of the final price, anyone else's the whole of it. With a sensible price and discount, 0 ≤ deposit ≤ final ≤ total. |
| AppointmentManager.SettleDiscountMonotone | components/AppointmentManager.tsx:172-175 | A larger discount never raises the final price or the deposit. |
| AppointmentManager.SettleDiscountExtremes | components/AppointmentManager.tsx:172-175 | No discount charges the list price; a 100% discount charges nothing. |
| AppointmentManager.SortedAppointments | components/AppointmentManager.tsx:92-94 | The agenda is ordered by date then time and is a permutation of the list. |
| AppointmentManager.OfferedServices | components/AppointmentManager.tsx:186 | Exactly the active services. |
| AppointmentManager.OfferedPromotions | components/AppointmentManager.tsx:189 | Exactly the active promotions. |
| AppointmentManager.OfferedProducts | components/AppointmentManager.tsx:192 | Exactly the active products with stock. |
| AppointmentManager.FindPatient | components/AppointmentManager.tsx:130 | A found patient has the id and is the first on the list to have it; when none is found, no patient has it. |
| AppointmentManager.Adjusted | components/AppointmentManager.tsx:154-160 | Only service, price, discount and `discountAppliedBy` change. The discount is credited to the current user only when it changed and is positive; otherwise the previous credit stays. |
| AppointmentManager.AdjustedIdempotent | components/AppointmentManager.tsx:154-160 | Saving the same adjustment again, by anyone, changes nothing. |
| AppointmentManager.Agenda.constructor | components/AppointmentManager.tsx:41-68 | The agenda starts with the given appointments, a closed dialog and an empty form. |
| AppointmentManager.Agenda.OpenPaymentModal | components/AppointmentManager.tsx:129-144 | An unregistered patient leaves the dialog as it was. A registered one opens it on the appointment, with a missing price or discount shown as 0 and the client new iff their history is empty. |
| AppointmentManager.Agenda.HandleSubmit | components/AppointmentManager.tsx:96-127 | Without edit rights or a registered patient nothing changes. Otherwise the booking is put first: confirmed, discount 0, payment not verified, price empty when the field is empty. The dialog then opens on it and the form is cleared. No slot is checked. |
| AppointmentManager.Agenda.ChangeServiceInPayment | components/AppointmentManager.tsx:146-150 | The dialog takes the new item and its catalog price. |
| AppointmentManager.Agenda.SavePaymentAdjustments | components/AppointmentManager.tsx:152-165 | With no appointment nothing changes. Otherwise the adjusted appointment replaces the one with its id and is returned. |
| AppointmentManager.Agenda.SettleForNotification | components/AppointmentManager.tsx:167-177 | The saved appointment is settled with the dialog's price, discount and newness; nothing is settled without an appointment and a patient. |
| ClientBooking.ActiveServices | components/ClientBooking.tsx:74 | Exactly the active services. |
| ClientBooking.ActivePromotions | components/ClientBooking.tsx:75 | Exactly the active promotions. |
| ClientBooking.PublicProducts | components/ClientBooking.tsx:76 | Exactly the active retail products with stock. |
| ClientBooking.SelectedItem | components/ClientBooking.tsx:78-83 | An item is found iff one of the chosen kind has the id, and the found item is the first such. |
| ClientBooking.DayConfig | components/ClientBooking.tsx:105 | A found entry is on the schedule for the date's weekday. When none is found, no entry has that weekday. |
| ClientBooking.HourSlots | components/ClientBooking.tsx:108-110 | One label per hour from the start up to, not including, the end, and none when the end is not after the start. |
| ClientBooking.GenerateTimeSlots | components/ClientBooking.tsx:106-111 | No slots for a closed day, a weekday without an entry or an unreadable hour. Otherwise the hourly labels of the opening hours, minutes ignored. |
| ClientBooking.HourLabelDigits | components/ClientBooking.tsx:109 | A slot label is the hour as two digits followed by `:00`. |
| ClientBooking.HourLabelReadsBack | components/ClientBooking.tsx:108-109 | `parseInt` of a slot label gives back its hour. |
| ClientBooking.HourLabelsIncrease | components/ClientBooking.tsx:109 | An earlier hour's label sorts strictly before a later one's. |
| ClientBooking.SlotsIncrease | components/ClientBooking.tsx:106-110 | A day's slots are in strictly increasing order and each reads back as its hour. |
| ClientBooking.CheckAvailability | components/ClientBooking.tsx:113-116 | A blocked key is never free. An unblocked one is free iff no appointment that is not cancelled has that date and time. |
| ClientBooking.CancelledNeverBlocks | components/ClientBooking.tsx:115 | Adding a cancelled appointment changes no hour's availability. |
| ClientBooking.BookedSlotIsTaken | components/ClientBooking.tsx:115 | A pending or confirmed appointment takes its hour away. |
| ClientBooking.HandleBook | components/ClientBooking.tsx:124-171 | Each check gives its own error: no item; an empty required field; a phone or emergency phone without ten digits; for a new visitor, a password under 4 characters or not matching. A booking is filed iff all checks pass. It is pending and carries the item's name and price (0 when none). A known client keeps their identity; a new one gets a fresh id, code and file number. The hour is not rechecked. |
| ClientBooking.SuccessDeposit | components/ClientBooking.tsx:178-181 | A deposit is asked iff there is neither a found nor a signed-in client, and it is a quarter of the undiscounted item price. |
| ClientBooking.DefaultMonday | constants.ts:124-125 | A Monday date picks the Monday entry of the default schedule. |
| ClientBooking.LabelReadsBack | components/ClientBooking.tsx:108 | A two-digit `HH:00` text reads as its hour. |
| ClientBooking.LabelsOfNineAndSeven | constants.ts:125 | `09:00` and `19:00` read as 9 and 19. |
| ClientBooking.MondayOpensNineToSeven | constants.ts:125 | Under the default schedule a Monday offers hours 9 up to 19. |
| ClientPortal.MyAppointments | components/ClientPortal.tsx:18 | Exactly the client's own appointments, latest date first, each as often as on the list. |
| ClientPortal.MyAppointmentsAreOwn | components/ClientPortal.tsx:18 | An appointment never shows on another client's page. |
| ClientPortal.HandleCancel | components/ClientPortal.tsx:20-24 | The id is passed on iff the client confirms and cancelling is wired up. |
| ClientPortal.PortalCancelEffect | App.tsx:171-173 | Cancelling a pending appointment from the portal makes it cancelled and leaves every other appointment as it was. |
| ClientPortal.CancelAvailability | components/ClientBooking.tsx:113-116 | After an id is cancelled, an hour is free iff it is not blocked and no appointment with another id holds it. |
| ClientPortal.CancelFreesSlot | App.tsx:171-173 | A booked hour is taken. Once its appointment is cancelled it is free again, unless it is blocked or another appointment holds it. |
| ClientPortal.CancelScenario | components/ClientBooking.tsx:115 | A confirmed visit on 2024-06-10 at 10:00 takes that hour, and cancelling it frees the hour. |
| ClientPortal.CompletedShownAsCancelled | components/ClientPortal.tsx:160 | The badge as written shows a completed visit as cancelled. |
| ClientPortal.StatusLabel | components/ClientPortal.tsx:160 | The badge agrees with the written one on every status but completed. |
| ClientPortal.StatusLabelInjective | components/ClientPortal.tsx:160 | With the corrected badge, different statuses get different labels. |
| PatientList.FilteredPatients | components/PatientList.tsx:57-61 | Exactly the patients whose name, email or code contains the term, ignoring case, and no more than the list. |
| PatientList.EmptySearchKeepsAll | components/PatientList.tsx:57-61 | An empty term lists everyone in the same order. |
| PatientList.ClientCodeFinds | components/PatientList.tsx:60 | A patient's client code, typed in any case, finds that patient. |
| PatientList.MatchIsOccurrence | components/PatientList.tsx:57-61 | A match is a real occurrence of the lowered term in one of the three lowered fields. |
| PatientList.PasswordExamples | components/PatientList.tsx:86-89 | The rule accepts eight characters with a capital and a digit. It refuses one missing each requirement, and one whose eight-character run is broken by a line break. |
| PatientList.StrongPasswordExtends | components/PatientList.tsx:86-89 | Adding text without a line break, before or after a strong password, leaves it strong. |
| PatientList.StrongPasswordReordered | components/PatientList.tsx:86-89 | The rule depends only on which characters a password has, each as often as it has them, not on their order. |
| PatientList.HandleSubmit | components/PatientList.tsx:93-157 | The checks run in order: phone, emergency phone, strength, confirmation. A patient is made iff all pass. It gets a fresh id, code and file number, no history or photos, `Por definir` skin type, `Ninguna` allergies by default, and the registering employee's name. |
| PatientList.FirstFileNumber | components/PatientList.tsx:80-83 | On an empty list the file number is `0100`. |
| Registration.FirstLetters | components/PatientList.tsx:75 | At most one letter per word. |
| Registration.FirstLettersFromWords | components/PatientList.tsx:75 | Each initial is the first character of some word. |
| Registration.Initials | components/PatientList.tsx:75 | At most three characters, none of them a lower-case letter. |
| Registration.CodeNumber | components/PatientList.tsx:76 | The random part is between 10000 and 99999. |
| Registration.ClientCode | components/PatientList.tsx:74-78 | The code is the initials followed by five digits that read back as the random number. |
| Registration.InitialsOfTwoWords | components/PatientList.tsx:75 | A two-word name gives the capitals of the two first letters. |
| Registration.SplitTwoWords | components/PatientList.tsx:75 | Two space-free words joined by a space split back into the two words. |
| Registration.FileNumber | components/PatientList.tsx:80-83 | At least four characters, all digits. |
| Registration.FileNumberValue | components/PatientList.tsx:80-83 | The file number reads back as 100 plus the patient count. |
| Registration.FileNumberInjective | components/PatientList.tsx:80-83 | Different patient counts give different file numbers. |
| Registration.FileNumberWidth | components/PatientList.tsx:80-83 | The first 9900 counts give four characters, and the first 900 a leading zero. |
| Registration.HasTenDigitsIgnoresSeparators | components/PatientList.tsx:91-97 | The ten-digit rule looks only at the digits, whatever separators are typed. |
| Calendar.ParseDate | components/ClientBooking.tsx:105 | A date that reads has a year of four digits, a month 1-12 and a day 1-31. |
| Calendar.FormatParse | components/ClientBooking.tsx:105 | Writing a date as `YYYY-MM-DD` and reading it back gives the same date. |
| Calendar.ParseFormat | components/ClientBooking.tsx:105 | A text that reads as a date is exactly that date's `YYYY-MM-DD` form. |
| Calendar.Weekday | components/ClientBooking.tsx:105 | `getDay()` of a date is between 0 (Sunday) and 6 (Saturday). |
| Calendar.WeekdayOf | components/ClientBooking.tsx:105 | The weekday of a date input's text, when it reads as a date, is between 0 and 6. |
| Calendar.WeekdayNextDay | components/ClientBooking.tsx:105 | Consecutive calendar days fall on consecutive weekdays, Saturday followed by Sunday. |
| Calendar.WeekdayRollsOver | components/ClientBooking.tsx:105 | A day past the end of its month falls on the weekday of the date it rolls over to. |
| Calendar.Normalize | components/PatientDetail.tsx:46 | The rolled-over date is a real calendar date; a real date is left as it is; a day past the month's end becomes that many days into the next month. |
| Calendar.NormalizeKeepsWeekday | components/ClientBooking.tsx:105 | Rolling a date over does not change the weekday its raw fields give. |
| Calendar.MondayScenario | components/ClientBooking.tsx:105 | `2024-06-10` falls on a Monday. |
| App.CloseRecords | App.tsx:249-254 | The log keeps its length; exactly the records of that date with no check-out get the time, the rest are unchanged. |
| Text.DigitsMembership | services/notificationService.ts:5 | A character survives `replace(/\D/g, '')` iff it is a digit of the input. |
| Text.DigitsIdempotent | services/notificationService.ts:5 | Stripping non-digits twice is stripping them once, and leaves a text unchanged iff it is all digits. |
| Text.LowerNormalises | components/PatientList.tsx:58-60 | A lowered text has no capital letters, and lowering it again changes nothing. |
| Text.TrimIsSlice | components/Login.tsx:51 | `trim()` gives a contiguous part of the text that neither starts nor ends with a space. |
| Text.SplitJoin | components/PatientList.tsx:75 | Joining the pieces of `split(' ')` with spaces gives back the text. |
| Text.ParseIntRoundTrip | components/ClientBooking.tsx:108 | `parseInt` reads back any integer written in decimal, whatever non-digit text follows it. |
| Text.ParsePaddedNat | components/ClientBooking.tsx:108-109 | `parseInt` reads back a number padded with leading zeros. |
| Seqs.Find | components/Dashboard.tsx:77 | `find` gives an element iff one passes. The element passes, and no earlier element does. |
| Seqs.SortBySortsAndPermutes | components/AppointmentManager.tsx:92-94 | The sort by a text key gives the same elements, each as often, in key order. |
| Login.ShortQueryNotByPhone | components/Login.tsx:54-58 | With fewer than seven digits typed, a client is found only by email or code. |
| Login.CodeInAnyCase | components/Login.tsx:51-58 | A client code typed in any case finds its client. |
| Login.SignIn | components/Login.tsx:33-70 | Staff are found by phone digits and clients by email, phone (seven digits or more) or code, first match first. The user signs in iff the stored password equals the trimmed input. An unknown user and a wrong password give different errors. |
| Login.StaffSignInSound | components/Login.tsx:38-43 | A staff sign-in names an employee on file with those phone digits and that password. |
| Login.NoPasswordNoSignIn | components/Login.tsx:41 | An employee with no password set cannot sign in. |
| Login.FirstClientWins | components/Login.tsx:54-58 | When several clients match, the first one listed signs in. |
| Login.RecoveryChannel | components/Login.tsx:98 | WhatsApp iff seven or more digits are typed; otherwise email. |
| Login.LoginScreen.constructor | components/Login.tsx:24-31 | No error and an idle recovery status. |
| Login.LoginScreen.HandleLogin | components/Login.tsx:33-70 | A successful sign-in returns the user and clears the error; a failed one returns nothing and shows its error. |
| Login.LoginScreen.HandleRecoverySubmit | components/Login.tsx:72-109 | An empty query does nothing. Staff are searched before clients. Nobody found is a failure. Otherwise a link goes by the chosen channel to the user's phone or email, and the message names that address. |
| EmployeeManager.TogglePermission | components/EmployeeManager.tsx:190-196 | The toggled permission is present iff it was absent; every other permission is unaffected. |
| EmployeeManager.TogglePermissionTwice | components/EmployeeManager.tsx:190-196 | Toggling twice restores the same set of permissions. |
| EmployeeManager.ToggleOnOff | components/EmployeeManager.tsx:190-196 | Turning an absent permission on then off restores the very same list. |
| EmployeeManager.ScheduleUpdate | components/EmployeeManager.tsx:198-202 | One field of one day changes and the day keeps its weekday; every other day is unchanged. |
| EmployeeManager.BankSelectionShown | components/EmployeeManager.tsx:535 | Whatever is picked in the bank select, `Otro` or a listed bank, is what the select then shows. |
| EmployeeManager.BankSelection | components/EmployeeManager.tsx:215-223 | `Otro` switches to a typed bank name starting empty; any other choice is the bank name. |
| EmployeeManager.HandleSave | components/EmployeeManager.tsx:139-188 | Refused for a phone without ten digits, or for a status other than active with no change date. A saved record has the admin flag grant exactly `all` and defaults the holder to the full name. It keeps the change date only for a status other than active. An edit keeps the id and attendance; a new employee starts with none. |
| EmployeeManager.KeptLog | components/EmployeeManager.tsx:175 | An edited employee keeps the attendance log of a stored employee with that id, and starts with none when no employee has it. |
| EmployeeManager.AdminFlagGrantsAll | components/EmployeeManager.tsx:152 | An employee saved with the admin flag holds every permission. |
| EmployeeManager.EditKeepsAttendance | components/EmployeeManager.tsx:175 | Editing an employee on file keeps exactly their attendance log. |
| PatientDetail.CalculateAge | components/PatientDetail.tsx:43-53 | 0 for an empty birth date, and nothing for an unreadable one. Otherwise the birth date is rolled over past its month's end, as `new Date` does, and the age-th birthday of that date has been reached by today and the next has not. |
| PatientDetail.RolledOverBirthAge | components/PatientDetail.tsx:46-51 | `2001-02-31` is read as the 3rd of March 2001, so on the 1st of March 2024 the only age meeting the birthday condition is 22. |
| PatientDetail.AgeOfPastBirth | components/PatientDetail.tsx:43-53 | A birth date on or before today gives a non-negative age. |
| PatientDetail.AgeUnique | components/PatientDetail.tsx:43-53 | Only one age satisfies the birthday condition. |
| PatientDetail.AddNote | components/PatientDetail.tsx:75-95 | Nothing is saved without both texts. Otherwise the new note goes first, ahead of the history in order, and nothing else changes. |
| PatientDetail.NoteEndsNewClient | components/PatientDetail.tsx:75-95 | After a first note the patient no longer counts as a new client. |
| PatientDetail.SaveEdit | components/PatientDetail.tsx:99-111 | Refused, phone first, unless both phones have ten digits; otherwise the edited record is saved as is. |
| PatientDetail.AddPhoto | components/PatientDetail.tsx:128-146 | Nothing is saved without a picture. Otherwise the new photo goes first, ahead of the earlier ones, and nothing else changes. |
| PatientDetail.PhotosKept | components/PatientDetail.tsx:128-146 | Every earlier photo is still there, in order, after the new one. |
| Dashboard.PendingRequests | components/Dashboard.tsx:72 | Exactly the pending appointments, earliest date and time first, each as often as on the list. |
| Dashboard.TodayAppointments | components/Dashboard.tsx:73 | Exactly today's appointments that are not cancelled. |
| Dashboard.SalesToday | components/Dashboard.tsx:75 | Exactly today's visits whose service is a retail product's name. |
| Dashboard.TreatmentsToday | components/Dashboard.tsx:76 | Exactly today's other visits. |
| Dashboard.SalesAndTreatmentsPartition | components/Dashboard.tsx:75-76 | Every visit of the day is counted once, as a sale or as a treatment. |
| Dashboard.UntypedProductIsTreatment | components/Dashboard.tsx:75-76 | A product without a type counts as a treatment when sold. |
| Dashboard.IncomeSplits | components/Dashboard.tsx:198 | The day's income is what the sales bring plus what the treatments bring. |
| Dashboard.IncomeNonNegative | components/Dashboard.tsx:198 | With no negative prices, the estimated income is not negative. |
| Dashboard.TodayLog | components/Dashboard.tsx:77 | A record is found iff someone is signed in and has a record for today. It is the first such record in their log. |
| Dashboard.ClockStatesExclusive | components/Dashboard.tsx:78-79 | Never both clocked in and clocked out. |
| Dashboard.ClockInThenOutStatus | components/Dashboard.tsx:77-79 | After a clock-in on a fresh day the employee shows as clocked in, and after the clock-out as clocked out. |
| Dashboard.ActiveStaff | components/Dashboard.tsx:81 | Exactly the employees with an active entry for today's weekday. |
| Dashboard.LowStockItems | components/Dashboard.tsx:82-83 | Exactly the active products with five or fewer in stock. |
| Dashboard.AllEvents | components/Dashboard.tsx:131-146 | The appointments' events, in list order, then the patients' registrations, in list order: one event each. |
| Dashboard.Timeline | components/Dashboard.tsx:131-148 | The first ten events (or all of them, when fewer), latest first. Each event appears at most as often as it occurs, every event appears when there are ten or fewer, and none comes after an event left out. |
| Layout.SameAsApplication | components/Layout.tsx:55 | For a signed-in staff member the frame and the shell grant the same permissions. |
| Layout.NavItems | components/Layout.tsx:58-70 | Clients see only the booking page. Staff see the dashboard first, and the agenda, patients and team iff they hold the matching permission. |
| Layout.NavItemsAreOpenable | components/Layout.tsx:58-63 | No entry shown to staff is one the shell would refuse to open. |
| Layout.PasswordForm.constructor | components/Layout.tsx:40-41 | Both password fields start empty. |
| Layout.PasswordForm.ChangePasswordSubmit | components/Layout.tsx:77-95 | Entries that differ, or that are under four characters, are refused and kept. The new password is handed on, and both fields cleared, iff the entries agree, are long enough and there is a handler. |
| Notification.DigitsMembershipAll | services/notificationService.ts:4-6 | A character is kept iff it is a digit of the input. |
| Notification.CleanPhone | services/notificationService.ts:4-6 | All digits, no longer than the input, and exactly the input's digits. |
| Notification.CleanPhoneAppend | services/notificationService.ts:4-6 | Cleaning a joined text is joining the cleaned parts, so order is kept. |
| Notification.WhatsAppNumber | services/notificationService.ts:8-16 | Ten digits get the `521` prefix: exactly then the number is 13 digits. Any other count is left as the bare digits. |
| Notification.WhatsAppNumberIdempotent | services/notificationService.ts:8-16 | Normalising a normalised number changes nothing. |
| Notification.WhatsAppNumberIgnoresFormatting | services/notificationService.ts:8-16 | Phones with the same digits get the same number. |
| Notification.QuickMessage | services/notificationService.ts:22-37 | The greeting with the first word of the name, a comma, then the template of the message type. |
| Notification.GreetingUsesFirstName | services/notificationService.ts:23 | The greeting names only the first word of the name. |
| Notification.QuickMessageToFullName | services/notificationService.ts:22-37 | A full name is greeted by its first word, followed by the type's template. |
| Notification.StatusMessage | services/notificationService.ts:39-75 | An unknown kind gives three empty texts, and only it does. A known kind greets by first name in both texts and has a subject. |
| Notification.NoticesMentionTheVisit | services/notificationService.ts:42-70 | Every notice gives the date in both texts and the time in the email. The confirmation and the rescheduling also give the time on WhatsApp. |
| Notification.ShownPassword | services/notificationService.ts:79 | The stored password, or a non-empty default when none is set. |
| Notification.RecoveryMessage | services/notificationService.ts:77-88 | Both texts greet by first name and the subject is the recovery subject. |
| Notification.RecoveryTellsPassword | services/notificationService.ts:77-88 | Both texts state the stored password, or the default when none is set. |
| Notification.AmountsAppend | services/notificationService.ts:134-145 | The figures of a joined text are the figures of its parts, in order. |
| Notification.BankDetails | services/notificationService.ts:124-132 | The bank block states the CLABE and the client's code as payment reference. |
| Notification.EmailBankDetails | services/notificationService.ts:145 | The email's bank block states the CLABE and the client's code. |
| Notification.PriceDetails | services/notificationService.ts:105-109 | States the total; states the discount iff it is positive. |
| Notification.Instructions | services/notificationService.ts:113-122 | A new client is told the deposit and the remainder, total less deposit; anyone else the total. |
| Notification.EmailPrice | services/notificationService.ts:145 | The email states the total and any non-zero discount. |
| Notification.EmailInstructions | services/notificationService.ts:145 | The email states the deposit only to a new client. |
| Notification.WhatsAppClosing | services/notificationService.ts:138-142 | The closing has no figures and carries the bank block. |
| Notification.WhatsAppPayment | services/notificationService.ts:135-142 | The figures are the total, then the deposit and remainder or the total again. The discount appears iff positive. The bank block is present. |
| Notification.EmailPayment | services/notificationService.ts:144-145 | The figures are the total, then the deposit for a new client. The discount appears iff non-zero. The bank block is present. |
| Notification.PaymentInfo | services/notificationService.ts:90-146 | No bank details gives three empty texts, and only that does. Otherwise the subject, every figure of both texts in order, the discount rules and the bank block with the client's code are as stated for the two texts. |
| Notification.NewClientQuote | services/notificationService.ts:113-122 | For a new client the settled visit's WhatsApp states the final price, a quarter of it as deposit, and three quarters as the rest. |
| Notification.QuarterDepositQuote | services/notificationService.ts:113-122 | A deposit of a quarter leaves three quarters to pay on the day. |

Definitions that the contracts above are stated with, and what they model:

- `App.HasPermission`: `hasPermission` (App.tsx:95-98). PermissionFacts and Layout.SameAsApplication state it.
- `Registration.HasTenDigits`: the ten-digit phone check (components/PatientList.tsx:91-97). Registration.HasTenDigitsIgnoresSeparators states it.
- `PatientList.StrongPassword`: `validatePassword` (components/PatientList.tsx:86-89). PasswordExamples, StrongPasswordExtends and StrongPasswordReordered state it.
- `AppointmentManager.IsNewClient`: an empty clinical history (components/AppointmentManager.tsx:132). PatientDetail.NoteEndsNewClient states it.
- `ClientBooking.ItemPrice` and `ClientBooking.ItemName`: `getItemPrice` and `getItemName` (components/ClientBooking.tsx:87-98). ClientBooking.HandleBook and ClientBooking.SuccessDeposit state them.
- `ClientBooking.IsDateBlocked`: `isDateBlocked` (components/ClientBooking.tsx:112). AdminSettings.BlockedDateIsBlocked states it.
- `ClientPortal.CanCancel`: the cancel button is shown only on a pending appointment with a handler (components/ClientPortal.tsx:163). ClientPortal.PortalCancelEffect states it.
- `ClientPortal.StatusLabelAsWritten`: the status badge as written (components/ClientPortal.tsx:160). See Findings.
- `Dashboard.EstimatedIncome`: the day's income (components/Dashboard.tsx:198). Dashboard.IncomeSplits and Dashboard.IncomeNonNegative state it.
- `Dashboard.IsClockedIn` and `Dashboard.IsClockedOut`: the clock status (components/Dashboard.tsx:78-79). Dashboard.ClockStatesExclusive and Dashboard.ClockInThenOutStatus state them.

## Left out

- Rendering: JSX, styles, tabs, modal visibility, menus and form resets are left out. Only the fields that a modelled handler reads or writes are kept.
- I/O: `window.open`, `alert`, `confirm` (a boolean parameter), `navigator.clipboard`, `FileReader` uploads, downloads and the CSV, JSON and configuration-file exports are left out.
- The URL text of `generateWhatsAppLink` and `generateMailtoLink` is left out. `encodeURIComponent` is left out as well. Only the phone number rule is modelled.
- Money formatting with `toLocaleString` and `toFixed` is left out. Payment texts keep each amount and percentage as a figure, so the contracts speak of figures, not of their printed form.
- Messages: the exact wording of the status, recovery and payment texts is written out as constants. The contracts state what the texts carry (greeting, date, time, password, figures, bank reference), not every character.
- JavaScript `Date`: dates are `YYYY-MM-DD` texts. Date and time order is string order. The weekday is computed from the parsed date, and a date that does not parse has no weekday.
- PatientDetail.CalculateAge: works on the calendar fields of the birth date after rolling over a day past the month's end. The UTC parsing of a date-only text, which can shift the day west of UTC, is not modelled.
- `parseFloat` and `parseInt` of form fields (prices, durations, stock, discounts) are left out: the forms hold the numbers already read. A NaN discount is not modelled. `parseInt` of an hour is modelled.
- Lengths are counted in characters, not UTF-16 code units. Lowercasing and uppercasing are ASCII only: letters such as `ñ` or `á` keep their case, where JavaScript would change it.
- Floating point: money is exact `real`. Rounding in `0.25 * finalPrice` and in the discount is not modelled.
- Seqs.SortBy: a stable insertion sort by string key stands in for `Array.prototype.sort` with a date comparator. Where the source compares dates that do not parse (NaN), the order is not modelled.
- App.tsx's `handleAddEmployee`, `handleUpdateEmployee`, `handleDeleteEmployee`, `handleUpdateUserPassword` and `handleQuickSwitchUser` are left out. So are its landing and login navigation handlers (`handleLoginSuccess`, `handleLogout`, `goToNewAppointment`, `goToNewPatient`, `handleSelectPatient`, `handleBackToPortal`). They only forward or set single fields.
- AdminSettings.tsx's promotion save and delete, contact and email settings, and bank fields on the settings screen are left out. They follow the same replace-a-field pattern as the modelled handlers. The `Otro` bank choice is modelled once, in EmployeeManager.BankSelection.
- AdminSettings.SettingsEditor.DayUpdate: requires a day index inside the schedule. The source writes past the end of the array for a larger index, and that case is not modelled.
- EmployeeManager.ScheduleUpdate: requires an index inside the schedule, for the same reason.
- The dashboard's messaging handlers (`handleSendWhatsApp`, `applyTemplate`) are left out, because they open windows. The texts they send are modelled in Notification.QuickMessage.
- Layout.tsx's `handleNavClick` is left out: it forwards to App.AppState.Navigate.
- Network calls to the AI model (`services/geminiService.ts`) are not part of this model. Neither is the static front page or the logo.
- `constants.ts` is used only for the default opening hours and the default work week.

## Findings

| source | as written | input that shows it | evidently intended | confidence | as-written member | corrected member |
|---|---|---|---|---|---|---|
| components/ClientPortal.tsx:160 | The status badge reads `Confirmada` for confirmed, `Pendiente` for pending, and `Cancelada` for everything else, completed included. | An appointment with status `completed` is labelled `Cancelada`. | A completed visit gets its own label, so that different statuses read differently. | medium, not executed | ClientPortal.StatusLabelAsWritten (with ClientPortal.CompletedShownAsCancelled) | ClientPortal.StatusLabel (with ClientPortal.StatusLabelInjective) |
