/** `signUp` of the authentication provider: a password policy checked before
    any account is created, the account creation call, and the `assign-role`
    call made only when an account came back without an error. The session
    listeners of the provider are not part of this model. */
module Auth {
  import opened Common

  const NoNumber := "Password must contain at least one number"
  const NoSpecial := "Password must contain at least one special character"

  /** Remote calls `signUp` makes: the account creation with the user's
      metadata, and the `assign-role` function with a body holding only `userId`. */
  datatype AuthCall =
    | CreateAccount(email: string, password: string, username: string, institutionId: string)
    | InvokeAssignRole(userId: string)

  /** The answer of the account creation: the new user's id, if any, and its error message, if any. */
  datatype AuthReply = AuthReply(user: Option<string>, error: Option<string>)

  /** The calls one `signUp` makes and the error it returns. */
  datatype SignUpRun = SignUpRun(calls: seq<AuthCall>, error: Option<string>)

  /** The password policy: length first (in UTF-16 code units, as JavaScript
      counts it), then a digit, then a special character; the first failing
      check decides the message. */
  function PasswordPolicyError(password: string): (r: Option<string>)
    ensures r == None <==> JsLength(password) >= 8 && HasDigit(password) && HasSpecial(password)
    ensures JsLength(password) < 8 ==> r == Some(TooShort)
    ensures JsLength(password) >= 8 && !HasDigit(password) ==> r == Some(NoNumber)
    ensures JsLength(password) >= 8 && HasDigit(password) && !HasSpecial(password) ==> r == Some(NoSpecial)
  {
    if JsLength(password) < 8 then Some(TooShort)
    else if !HasDigit(password) then Some(NoNumber)
    else if !HasSpecial(password) then Some(NoSpecial)
    else None
  }

  /** Four emoji, a digit and a `!` are six characters but ten UTF-16 code
      units, so the policy accepts them. */
  lemma AstralCharactersCountTwice()
    ensures PasswordPolicyError("\U{1F600}\U{1F600}\U{1F600}\U{1F600}1!") == None
  {
    var p := "\U{1F600}\U{1F600}\U{1F600}\U{1F600}1!";
    assert |p| == 6;
    assert JsLength(p) == 10 by {
      assert p[1..] == "\U{1F600}\U{1F600}\U{1F600}1!";
      assert p[2..] == "\U{1F600}\U{1F600}1!";
      assert p[3..] == "\U{1F600}1!";
      assert p[4..] == "1!";
      assert p[5..] == "!";
      assert p[6..] == "";
    }
    assert IsDigit(p[4]) && IsSpecial(p[5]);
  }

  function SignUp(email: string, password: string, username: string, institutionId: string, reply: AuthReply): (r: SignUpRun)
    // A policy failure returns before any remote call.
    ensures PasswordPolicyError(password).Some? ==> r == SignUpRun([], PasswordPolicyError(password))
    // Otherwise the account call comes first, and the returned error is exactly its error.
    ensures PasswordPolicyError(password).None? ==>
              && r.error == reply.error
              && 1 <= |r.calls| <= 2
              && r.calls[0] == CreateAccount(email, password, username, institutionId)
    // The role call is made iff a user came back without an error, and carries only that user's id.
    ensures |r.calls| == 2 <==> PasswordPolicyError(password).None? && reply.user.Some? && reply.error.None?
    ensures |r.calls| == 2 ==> r.calls[1] == InvokeAssignRole(reply.user.value)
    ensures forall c :: c in r.calls ==> c.InvokeAssignRole? ==> reply.user == Some(c.userId)
  {
    match PasswordPolicyError(password)
    case Some(message) => SignUpRun([], Some(message))
    case None =>
      var create := CreateAccount(email, password, username, institutionId);
      if reply.user.Some? && reply.error.None? then
        SignUpRun([create, InvokeAssignRole(reply.user.value)], reply.error)
      else
        SignUpRun([create], reply.error)
  }

  /** No account is ever requested for a password the policy rejects. */
  lemma {:induction false} NoAccountForWeakPassword(email: string, password: string, username: string, institutionId: string, reply: AuthReply)
    ensures (exists c :: c in SignUp(email, password, username, institutionId, reply).calls && c.CreateAccount?) <==>
              JsLength(password) >= 8 && HasDigit(password) && HasSpecial(password)
  {
    var r := SignUp(email, password, username, institutionId, reply);
    if PasswordPolicyError(password).None? {
      assert r.calls[0] in r.calls;
    }
  }
}
