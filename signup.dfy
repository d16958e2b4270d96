/** The sign-up page: a validation chain on the form (required fields, then
    confirmation, then a 6-character minimum), then a call of `signUp` with
    `loading` set, then a toast and either a redirect to `/login` or
    `loading` cleared. */
module SignupPage {
  import opened Common
  import opened Auth

  const Required := "Please fill in all required fields"
  const TooShortForForm := "Password must be at least 6 characters"

  /** The form's checks in their order; `institutionId` is optional and not checked. */
  function FormError(email: string, username: string, password: string, confirmPassword: string): (r: Option<string>)
    ensures email == "" || username == "" || password == "" || confirmPassword == "" ==> r == Some(Required)
    ensures email != "" && username != "" && password != "" && confirmPassword != "" && password != confirmPassword ==>
              r == Some(Mismatch)
    ensures r == Some(TooShortForForm) <==>
              email != "" && username != "" && password != "" && password == confirmPassword && JsLength(password) < 6
    ensures r == None <==>
              email != "" && username != "" && password == confirmPassword && JsLength(password) >= 6
  {
    if email == "" || username == "" || password == "" || confirmPassword == "" then Some(Required)
    else if password != confirmPassword then Some(Mismatch)
    else if JsLength(password) < 6 then Some(TooShortForForm)
    else None
  }

  /** What one submission does: a validation toast, or the `signUp` call and its result. */
  datatype Submission =
    | Invalid(message: string)
    | Submitted(run: SignUpRun)

  function Submit(email: string, username: string, password: string, confirmPassword: string,
                  institutionId: string, reply: AuthReply): (r: Submission)
    ensures r.Invalid? <==> FormError(email, username, password, confirmPassword).Some?
    ensures r.Invalid? ==> r.message == FormError(email, username, password, confirmPassword).value
    // The institution is passed through as chosen, the empty string included.
    ensures r.Submitted? ==> r.run == SignUp(email, password, username, institutionId, reply)
  {
    match FormError(email, username, password, confirmPassword)
    case Some(message) => Invalid(message)
    case None => Submitted(SignUp(email, password, username, institutionId, reply))
  }

  /** Together with `signUp`'s own policy, no account is requested for a
      password shorter than 8 UTF-16 code units, although the form admits 6 and 7. */
  lemma {:induction false} EffectiveMinimumIsEight(email: string, username: string, password: string,
                                                   institutionId: string, reply: AuthReply)
    requires email != "" && username != "" && 6 <= JsLength(password) < 8
    ensures FormError(email, username, password, password) == None
    ensures Submit(email, username, password, password, institutionId, reply) == Submitted(SignUpRun([], Some(TooShort)))
  {
    assert PasswordPolicyError(password) == Some(TooShort);
  }

  lemma {:induction false} AccountRequestedOnlyForStrongPassword(email: string, username: string, password: string,
                                                                  confirmPassword: string, institutionId: string, reply: AuthReply)
    ensures var r := Submit(email, username, password, confirmPassword, institutionId, reply);
            r.Submitted? && r.run.calls != [] <==>
              email != "" && username != "" && password == confirmPassword &&
              JsLength(password) >= 8 && HasDigit(password) && HasSpecial(password)
  {
    var r := Submit(email, username, password, confirmPassword, institutionId, reply);
    if FormError(email, username, password, confirmPassword) == None {
      assert r.run == SignUp(email, password, username, institutionId, reply);
    }
  }

  class SignupForm {
    var email: string
    var username: string
    var password: string
    var confirmPassword: string
    var institutionId: string
    var loading: bool
    var toasts: seq<Toast>
    /** The route the page navigated to, if any. */
    var route: Option<string>
    /** Remote calls made on the page's behalf. */
    var authCalls: seq<AuthCall>

    constructor ()
      ensures email == "" && username == "" && password == "" && confirmPassword == "" && institutionId == ""
      ensures !loading && toasts == [] && route == None && authCalls == []
    {
      email, username, password, confirmPassword, institutionId := "", "", "", "", "";
      loading := false;
      toasts := [];
      route := None;
      authCalls := [];
    }

    /** `handleSubmit`; `reply` is the account service's answer. */
    method HandleSubmit(reply: AuthReply)
      modifies this`loading, this`toasts, this`route, this`authCalls
      ensures var s := Submit(email, username, password, confirmPassword, institutionId, reply);
        match s
        case Invalid(message) =>
          // A validation failure changes nothing but the toasts.
          && toasts == old(toasts) + [Toast(true, "Validation Error", message)]
          && loading == old(loading) && route == old(route) && authCalls == old(authCalls)
        case Submitted(run) =>
          && authCalls == old(authCalls) + run.calls
          && (run.error.Some? ==>
                toasts == old(toasts) + [Toast(true, "Signup Failed", run.error.value)] &&
                !loading && route == old(route))
          && (run.error.None? ==>
                toasts == old(toasts) + [Toast(false, "Account Created", "Please log in with your credentials")] &&
                loading && route == Some("/login"))
    {
      var invalid := FormError(email, username, password, confirmPassword);
      if invalid.Some? {
        toasts := toasts + [Toast(true, "Validation Error", invalid.value)];
        return;
      }
      loading := true;
      var run := SignUp(email, password, username, institutionId, reply);
      authCalls := authCalls + run.calls;
      if run.error.Some? {
        toasts := toasts + [Toast(true, "Signup Failed", run.error.value)];
        loading := false;
      } else {
        toasts := toasts + [Toast(false, "Account Created", "Please log in with your credentials")];
        route := Some("/login");
      }
    }
  }
}
