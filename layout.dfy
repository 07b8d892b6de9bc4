/**
 * The staff frame around every screen: which navigation entries the
 * signed-in employee sees, and the change-password form in the user menu.
 */
module Layout {
  import opened Wrappers
  import opened Domain
  import App

  /** `hasPermission` in the frame: `all` or the permission itself. */
  predicate UserHasPermission(user: Employee, perm: Permission) {
    All in user.permissions || perm in user.permissions
  }

  /** For a signed-in staff member the frame and the application agree on every permission. */
  lemma SameAsApplication(user: Employee, perm: Permission)
    ensures UserHasPermission(user, perm) <==> App.HasPermission(Admin, Some(user), perm)
  {
  }

  /**
   * The navigation entries, in order: for staff the dashboard always, then
   * the agenda, the patients and the team, each behind its permission; for
   * clients only the booking page.
   */
  function NavItems(role: Role, user: Employee): (items: seq<View>)
    ensures role == Client ==> items == [ClientBookingView]
    ensures role == Admin ==>
      |items| >= 1 && items[0] == DashboardView
      && (AppointmentsView in items <==> UserHasPermission(user, ViewAppointments))
      && (PatientsView in items <==> UserHasPermission(user, ViewPatients))
      && (EmployeesView in items <==> UserHasPermission(user, ManageEmployees))
      && forall v :: v in items ==> v in {DashboardView, AppointmentsView, PatientsView, EmployeesView}
  {
    if role == Client then [ClientBookingView]
    else
      [DashboardView]
      + (if UserHasPermission(user, ViewAppointments) then [AppointmentsView] else [])
      + (if UserHasPermission(user, ViewPatients) then [PatientsView] else [])
      + (if UserHasPermission(user, ManageEmployees) then [EmployeesView] else [])
  }

  /** No entry the menu shows to staff is one the application would refuse to open. */
  lemma NavItemsAreOpenable(user: Employee, v: View)
    requires v in NavItems(Admin, user)
    ensures !(v == SettingsView && !App.HasPermission(Admin, Some(user), ManageSettings))
    ensures !(v == EmployeesView && !App.HasPermission(Admin, Some(user), ManageEmployees))
  {
  }

  /** What submitting the change-password form does. */
  datatype PasswordOutcome = Mismatch | TooShort | Updated(newPassword: string) | NoHandler

  class PasswordForm {
    var newPassword: string
    var confirmNewPassword: string

    constructor ()
      ensures newPassword == "" && confirmNewPassword == ""
    {
      newPassword := "";
      confirmNewPassword := "";
    }

    /**
     * `handleChangePasswordSubmit`: the two entries must agree and have at
     * least four characters; the new password is then handed on and both
     * fields are cleared. With no handler nothing happens.
     */
    method ChangePasswordSubmit(hasHandler: bool) returns (outcome: PasswordOutcome)
      modifies this
      ensures old(newPassword) != old(confirmNewPassword) ==> outcome == Mismatch
      ensures old(newPassword) == old(confirmNewPassword) && |old(newPassword)| < 4 ==> outcome == TooShort
      ensures outcome.Updated? <==> (old(newPassword) == old(confirmNewPassword) && |old(newPassword)| >= 4 && hasHandler)
      ensures outcome.Updated? ==> outcome.newPassword == old(newPassword) && newPassword == "" && confirmNewPassword == ""
      ensures !outcome.Updated? ==> newPassword == old(newPassword) && confirmNewPassword == old(confirmNewPassword)
    {
      if newPassword != confirmNewPassword {
        return Mismatch;
      }
      if |newPassword| < 4 {
        return TooShort;
      }
      if !hasHandler {
        return NoHandler;
      }
      outcome := Updated(newPassword);
      newPassword := "";
      confirmNewPassword := "";
    }
  }
}
