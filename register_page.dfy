/** The registration page: the ordered checks of its submit handler and the
    password-strength rule. Its redirect for visitors with a session is the
    switch `Roles.LandingFor`. */
module RegisterPage {
  import opened Js
  import opened Text
  import opened Roles
  import opened AuthContext

  const AfterRegister: string := "/customer"

  const NameRequired: string := "Name is required"
  const WeakPassword: string :=
    "Password must be at least 8 characters, include uppercase, lowercase, number, and special character."
  const PasswordMismatch: string := "Passwords do not match"
  const SubmitFallback: string := "Registration failed"

  predicate IsLower(c: char) { 'a' <= c <= 'z' }
  predicate IsUpper(c: char) { 'A' <= c <= 'Z' }
  predicate IsDigit(c: char) { '0' <= c <= '9' }
  predicate IsSpecial(c: char) {
    c == '@' || c == '$' || c == '!' || c == '%' || c == '*' || c == '?' || c == '&'
  }

  /** The class `[A-Za-z\d@$!%*?&]`. */
  predicate IsPasswordChar(c: char) {
    IsLower(c) || IsUpper(c) || IsDigit(c) || IsSpecial(c)
  }

  /** The pattern `^(?=.*[a-z])(?=.*[A-Z])(?=.*\d)(?=.*[@$!%*?&])[A-Za-z\d@$!%*?&]{8,}$`:
      eight or more characters, all from the class, with at least one of each
      kind. (The look-aheads' `.` skips line terminators, none of which the
      class admits, so it adds no further condition.) */
  predicate IsStrongPassword(p: string) {
    && |p| >= 8
    && (forall i :: 0 <= i < |p| ==> IsPasswordChar(p[i]))
    && (exists i :: 0 <= i < |p| && IsLower(p[i]))
    && (exists i :: 0 <= i < |p| && IsUpper(p[i]))
    && (exists i :: 0 <= i < |p| && IsDigit(p[i]))
    && (exists i :: 0 <= i < |p| && IsSpecial(p[i]))
  }

  /** Two passwords on either side of the rule: one of each kind in eight
      characters passes; the same with the capital lowered, or with a space
      in it, fails. */
  lemma StrongPasswordExamples()
    ensures IsStrongPassword("Passw0rd!")
    ensures !IsStrongPassword("passw0rd!")
    ensures !IsStrongPassword("Pass w0rd!")
  {
    var p := "Passw0rd!";
    assert IsUpper(p[0]) && IsLower(p[1]) && IsDigit(p[5]) && IsSpecial(p[8]);
    var q := "Pass w0rd!";
    assert !IsPasswordChar(q[4]);
  }

  /** A strong password holds no white space, so trimming it, as the form
      does with the name, would change nothing. */
  lemma StrongPasswordIsTrimmed(p: string)
    requires IsStrongPassword(p)
    ensures NoWhitespace(p) && Trim(p) == p
  {
    TrimNoWhitespace(p);
  }

  /** The ordered checks of `handleSubmit`: the message of the first one to
      fail, or none. A blank name is reported before anything else, and the
      confirmation is compared only once the password is strong. */
  function Check(name: string, password: string, confirm: string): (r: Option<string>)
    ensures r.None? <==> Truthy(Trim(name)) && IsStrongPassword(password) && password == confirm
    ensures !Truthy(Trim(name)) ==> r == Some(NameRequired)
    ensures Truthy(Trim(name)) && !IsStrongPassword(password) ==> r == Some(WeakPassword)
    ensures r == Some(PasswordMismatch) ==> IsStrongPassword(password) && password != confirm
    ensures Truthy(Trim(name)) && IsStrongPassword(password) && password != confirm ==> r == Some(PasswordMismatch)
  {
    if !Truthy(Trim(name)) then Some(NameRequired)
    else if !IsStrongPassword(password) then Some(WeakPassword)
    else if password != confirm then Some(PasswordMismatch)
    else None
  }

  /** The body `register` is called with. */
  datatype RegisterRequest = RegisterRequest(name: string, username: string, password: string)

  /** The page's form state. */
  class RegisterForm {
    var name: string
    var username: string
    var password: string
    var passwordConfirm: string
    var error: string

    constructor ()
      ensures name == "" && username == "" && password == "" && passwordConfirm == "" && error == ""
    {
      name, username, password, passwordConfirm, error := "", "", "", "", "";
    }

    /** `handleSubmit`. `register` is called only when every check passes,
        with the name as typed (untrimmed); `reply` is the server's answer to
        it. On success the page navigates to the customer dashboard; on
        failure it shows `register`'s message, or "Registration failed" when
        that is empty. */
    method HandleSubmit(auth: AuthProvider, reply: Outcome)
      returns (sent: Option<RegisterRequest>, navigateTo: Option<string>)
      modifies this`error
      ensures sent.Some? <==> Check(name, password, passwordConfirm).None?
      ensures sent.Some? ==> sent.value == RegisterRequest(name, username, password)
      ensures sent.None? ==> error == Check(name, password, passwordConfirm).value && navigateTo.None?
      ensures sent.Some? && reply.Fulfilled? ==> error == "" && navigateTo == Some(AfterRegister)
      ensures sent.Some? && reply.Rejected? ==>
                error == OrElse(reply.error.message, RegisterFallback) && navigateTo.None?
    {
      error := "";
      navigateTo := None;
      var failure := Check(name, password, passwordConfirm);
      if failure.Some? {
        error := failure.value;
        sent := None;
        return;
      }
      sent := Some(RegisterRequest(name, username, password));
      var result := auth.Register(reply);
      match result
      case Registered(_) =>
        navigateTo := Some(AfterRegister);
      case RegisterFailed(message) =>
        error := OrElse(Some(message), SubmitFallback);
    }
  }
}
