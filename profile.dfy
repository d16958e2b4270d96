/** The profile page's `handleUpdateProfile`: the username is always written
    first, the email only when it differs from the account's, and a new
    password only after its own checks. The first failure ends the update, so
    earlier writes stay in place. The "current password" field is never read. */
module ProfilePage {
  import opened Common

  const Weak := "Password must contain at least one number and one special character"

  /** Remote calls of the update: the `profiles` row, then the account's email, then its password. */
  datatype ProfileCall =
    | UpdateUsername(userId: string, username: string)
    | UpdateEmail(email: string)
    | UpdatePassword(password: string)

  /** The error each remote call reports, if any. */
  datatype Replies = Replies(profileError: Option<string>, emailError: Option<string>, passwordError: Option<string>)

  /** The calls one update makes, its toasts, and whether the password changed. */
  datatype UpdateRun = UpdateRun(calls: seq<ProfileCall>, toasts: seq<Toast>, passwordUpdated: bool)

  function ErrorToast(message: string): Toast {
    Toast(true, "Error", message)
  }

  const EmailToast := Toast(false, "Email Update", "Please check your new email for confirmation link")
  const PasswordToast := Toast(false, "Success", "Password updated successfully")
  const ProfileToast := Toast(false, "Success", "Profile updated successfully")

  /** The checks on a non-empty new password, in order: confirmation, length, then digit and special character together. */
  function NewPasswordError(newPassword: string, confirmPassword: string): (r: Option<string>)
    ensures newPassword != confirmPassword ==> r == Some(Mismatch)
    ensures newPassword == confirmPassword && JsLength(newPassword) < 8 ==> r == Some(TooShort)
    ensures newPassword == confirmPassword && JsLength(newPassword) >= 8 && !(HasDigit(newPassword) && HasSpecial(newPassword)) ==>
              r == Some(Weak)
    ensures r == None <==> newPassword == confirmPassword && JsLength(newPassword) >= 8 && HasDigit(newPassword) && HasSpecial(newPassword)
  {
    if newPassword != confirmPassword then Some(Mismatch)
    else if JsLength(newPassword) < 8 then Some(TooShort)
    else if !HasDigit(newPassword) || !HasSpecial(newPassword) then Some(Weak)
    else None
  }

  /** Whether the email counts as changed; an account without an email always differs. */
  predicate EmailChanged(email: string, accountEmail: Option<string>) {
    accountEmail != Some(email)
  }

  function UpdateProfile(userId: string, username: string, email: string, accountEmail: Option<string>,
                         newPassword: string, confirmPassword: string, replies: Replies): (r: UpdateRun)
    // The username write is always attempted, and first.
    ensures |r.calls| >= 1 && r.calls[0] == UpdateUsername(userId, username)
    ensures |r.toasts| >= 1
  {
    var first := [UpdateUsername(userId, username)];
    if replies.profileError.Some? then UpdateRun(first, [ErrorToast(replies.profileError.value)], false)
    else
      var changed := EmailChanged(email, accountEmail);
      var calls := first + (if changed then [UpdateEmail(email)] else []);
      if changed && replies.emailError.Some? then UpdateRun(calls, [ErrorToast(replies.emailError.value)], false)
      else
        var emailToasts := if changed then [EmailToast] else [];
        if newPassword == "" then UpdateRun(calls, emailToasts + [ProfileToast], false)
        else match NewPasswordError(newPassword, confirmPassword)
          case Some(message) => UpdateRun(calls, emailToasts + [ErrorToast(message)], false)
          case None =>
            var all := calls + [UpdatePassword(newPassword)];
            if replies.passwordError.Some? then UpdateRun(all, emailToasts + [ErrorToast(replies.passwordError.value)], false)
            else UpdateRun(all, emailToasts + [PasswordToast, ProfileToast], true)
  }

  /** The email is written iff the username write succeeded and the email differs from the account's. */
  lemma EmailWrittenOnlyWhenChanged(userId: string, username: string, email: string, accountEmail: Option<string>,
                                    newPassword: string, confirmPassword: string, replies: Replies)
    ensures var r := UpdateProfile(userId, username, email, accountEmail, newPassword, confirmPassword, replies);
            && (UpdateEmail(email) in r.calls <==> replies.profileError.None? && EmailChanged(email, accountEmail))
            && (forall c :: c in r.calls && c.UpdateEmail? ==> c.email == email)
  {
  }

  /** An empty new password skips every password check and write; a non-empty one is
      written iff every earlier step succeeded and it passes its checks. */
  lemma PasswordWrittenOnlyAfterChecks(userId: string, username: string, email: string, accountEmail: Option<string>,
                                       newPassword: string, confirmPassword: string, replies: Replies)
    ensures var r := UpdateProfile(userId, username, email, accountEmail, newPassword, confirmPassword, replies);
            && (newPassword == "" ==> !r.passwordUpdated && forall c :: c in r.calls ==> !c.UpdatePassword?)
            && (UpdatePassword(newPassword) in r.calls <==>
                  && replies.profileError.None?
                  && (EmailChanged(email, accountEmail) ==> replies.emailError.None?)
                  && newPassword != ""
                  && NewPasswordError(newPassword, confirmPassword) == None)
            && (forall c :: c in r.calls && c.UpdatePassword? ==> c.password == newPassword)
            && (r.passwordUpdated <==> UpdatePassword(newPassword) in r.calls && replies.passwordError.None?)
  {
  }

  /** A rejected new password is reported after the username (and a changed email) were already written. */
  lemma RejectedPasswordLeavesPartialUpdate(userId: string, username: string, email: string, accountEmail: Option<string>,
                                            newPassword: string, confirmPassword: string, replies: Replies)
    requires replies.profileError.None?
    requires EmailChanged(email, accountEmail) ==> replies.emailError.None?
    requires newPassword != "" && NewPasswordError(newPassword, confirmPassword).Some?
    ensures var r := UpdateProfile(userId, username, email, accountEmail, newPassword, confirmPassword, replies);
            && r.calls == [UpdateUsername(userId, username)] + (if EmailChanged(email, accountEmail) then [UpdateEmail(email)] else [])
            && r.toasts[|r.toasts| - 1] == ErrorToast(NewPasswordError(newPassword, confirmPassword).value)
            && !r.passwordUpdated
  {
  }

  /** The last toast reports success iff no step failed. */
  lemma SuccessIffNoStepFailed(userId: string, username: string, email: string, accountEmail: Option<string>,
                               newPassword: string, confirmPassword: string, replies: Replies)
    ensures var r := UpdateProfile(userId, username, email, accountEmail, newPassword, confirmPassword, replies);
            r.toasts[|r.toasts| - 1] == ProfileToast <==>
              && replies.profileError.None?
              && (EmailChanged(email, accountEmail) ==> replies.emailError.None?)
              && (newPassword != "" ==> NewPasswordError(newPassword, confirmPassword) == None && replies.passwordError.None?)
  {
  }

  /** The page's state and the calls it has made. */
  class ProfileForm {
    var username: string
    var email: string
    var currentPassword: string
    var newPassword: string
    var confirmPassword: string
    var loading: bool
    var toasts: seq<Toast>
    var calls: seq<ProfileCall>

    constructor ()
      ensures username == "" && email == "" && currentPassword == "" && newPassword == "" && confirmPassword == ""
      ensures !loading && toasts == [] && calls == []
    {
      username, email, currentPassword, newPassword, confirmPassword := "", "", "", "", "";
      loading := false;
      toasts := [];
      calls := [];
    }

    /** `handleUpdateProfile` for the signed-in user `userId` whose account email is `accountEmail`. */
    method HandleUpdateProfile(userId: string, accountEmail: Option<string>, replies: Replies)
      modifies this`loading, this`calls, this`toasts, this`currentPassword, this`newPassword, this`confirmPassword
      ensures calls == old(calls) + UpdateProfile(userId, old(username), old(email), accountEmail, old(newPassword), old(confirmPassword), replies).calls
      ensures toasts == old(toasts) + UpdateProfile(userId, old(username), old(email), accountEmail, old(newPassword), old(confirmPassword), replies).toasts
      ensures !loading
      // The password fields are cleared only after a successful password update.
      ensures if UpdateProfile(userId, old(username), old(email), accountEmail, old(newPassword), old(confirmPassword), replies).passwordUpdated
              then currentPassword == "" && newPassword == "" && confirmPassword == ""
              else currentPassword == old(currentPassword) && newPassword == old(newPassword) && confirmPassword == old(confirmPassword)
    {
      loading := true;
      var made, shown, passwordUpdated := RunUpdate(userId, username, email, accountEmail, newPassword, confirmPassword, replies);
      calls := calls + made;
      toasts := toasts + shown;
      if passwordUpdated {
        currentPassword, newPassword, confirmPassword := "", "", "";
      }
      loading := false;
    }
  }

  /** The steps of `handleUpdateProfile` in their order, each ending the
      update on failure: the calls made, the toasts shown, and whether the
      password was updated. */
  method RunUpdate(userId: string, username: string, email: string, accountEmail: Option<string>,
                   newPassword: string, confirmPassword: string, replies: Replies)
    returns (made: seq<ProfileCall>, shown: seq<Toast>, passwordUpdated: bool)
    ensures UpdateRun(made, shown, passwordUpdated) ==
              UpdateProfile(userId, username, email, accountEmail, newPassword, confirmPassword, replies)
  {
    made := [UpdateUsername(userId, username)];
    shown := [];
    passwordUpdated := false;
    if replies.profileError.Some? {
      shown := [ErrorToast(replies.profileError.value)];
      return;
    }
    if EmailChanged(email, accountEmail) {
      made := made + [UpdateEmail(email)];
      if replies.emailError.Some? {
        shown := [ErrorToast(replies.emailError.value)];
        return;
      }
      shown := [EmailToast];
    }
    if newPassword != "" {
      var rejected := NewPasswordError(newPassword, confirmPassword);
      if rejected.Some? {
        shown := shown + [ErrorToast(rejected.value)];
        return;
      }
      made := made + [UpdatePassword(newPassword)];
      if replies.passwordError.Some? {
        shown := shown + [ErrorToast(replies.passwordError.value)];
        return;
      }
      passwordUpdated := true;
      shown := shown + [PasswordToast];
    }
    shown := shown + [ProfileToast];
  }
}
