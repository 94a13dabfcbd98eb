/**
 * The sign-up screen: the form checks, and the alert shown for the outcome
 * of the register request.
 */
module Signup {

  import opened Common
  import opened Js
  import opened Http
  import opened Validation

  datatype SignupForm = SignupForm(fullName: string, email: string, password: string)

  const FillAllFields := "Please fill in all fields"
  const InvalidEmail := "Please enter a valid email address"
  const ShortPassword := "Password must be at least 6 characters long"
  const Registered := "Registration successful! Please login to continue."
  const EmailTaken := "Email already exists"
  const NetworkFailure := "Network error. Please check your connection."
  const RegistrationFailed := "Registration failed"

  /** Any field left empty; a field holding only spaces is not empty. */
  predicate AnyEmpty(f: SignupForm)
  {
    f.email == "" || f.password == "" || f.fullName == ""
  }

  /**
   * `validateForm`: the error alert it raises, or `None` when the form may be
   * sent. The checks run in the order empty fields, e-mail, password length.
   */
  function ValidateForm(f: SignupForm): (alert: Option<string>)
    ensures alert == Some(FillAllFields) <==> AnyEmpty(f)
    ensures alert == Some(InvalidEmail) <==> !AnyEmpty(f) && !MatchesEmailPattern(f.email)
    ensures alert == Some(ShortPassword) <==> !AnyEmpty(f) && MatchesEmailPattern(f.email) && !IsValidPassword(f.password)
    ensures alert.None? <==> !AnyEmpty(f) && MatchesEmailPattern(f.email) && IsValidPassword(f.password)
  {
    EmailCheckIsPattern(f.email);
    if AnyEmpty(f) then Some(FillAllFields)
    else if !IsValidEmail(f.email) then Some(InvalidEmail)
    else if Utf16Length(f.password) < 6 then Some(ShortPassword)
    else None
  }

  /** Fields are not trimmed: a form of spaces gets past the empty check and is stopped by the e-mail check. */
  lemma BlankFormFailsOnEmail(n: nat)
    requires n > 0
    ensures ValidateForm(SignupForm(Spaces(n), Spaces(n), Spaces(n))) == Some(InvalidEmail)
  {
    var s := Spaces(n);
    assert s[0] == ' ';
    PaddedEmailInvalid(s);
    EmailCheckIsPattern(s);
  }

  /** `n` spaces. */
  function Spaces(n: nat): (s: string)
    ensures |s| == n && forall i :: 0 <= i < n ==> s[i] == ' '
  {
    if n == 0 then "" else " " + Spaces(n - 1)
  }

  /** The body of the register request. */
  datatype Registration = Registration(email: string, password: string, name: string)

  /** An alert; `toLogin` when its OK button navigates to the login screen. */
  datatype Alert = Alert(title: string, message: Json, toLogin: bool)

  /** The message of the error alert for a rejected register request. */
  function FailureMessage(r: Reply): (m: Json)
    ensures Truthy(m)
    ensures r.Response? && r.status == 409 ==> m == Str(EmailTaken)
    ensures r.Network? ==> m == Str(NetworkFailure)
    ensures r.Response? && r.status != 409 && Truthy(ServerMessage(r)) ==> m == ServerMessage(r)
    ensures r.Response? && r.status != 409 && !Truthy(ServerMessage(r)) ==> m == Str(RegistrationFailed)
  {
    if r.Response? && r.status == 409 then Str(EmailTaken)
    else if !HasResponse(r) then Str(NetworkFailure)
    else Or(ServerMessage(r), Str(RegistrationFailed))
  }

  /** What one press of the sign-up button does: the request sent, if any, and the alert shown. */
  datatype SignupOutcome = SignupOutcome(request: Option<Registration>, alert: Alert)

  /** `handleSignup`, with the server's reply taken as a parameter. */
  function HandleSignup(f: SignupForm, reply: Reply): (o: SignupOutcome)
    ensures o.request.Some? <==> ValidateForm(f).None?
    ensures o.request.Some? ==> o.request.value == Registration(f.email, f.password, f.fullName)
    ensures o.request.None? ==> o.alert == Alert("Error", Str(ValidateForm(f).value), false)
    ensures o.request.Some? && Ok(reply) ==> o.alert == Alert("Success", Str(Registered), true)
    ensures o.request.Some? && !Ok(reply) ==> o.alert == Alert("Error", FailureMessage(reply), false)
  {
    match ValidateForm(f)
    case Some(message) => SignupOutcome(None, Alert("Error", Str(message), false))
    case None =>
      var request := Registration(f.email, f.password, f.fullName);
      if Ok(reply) then SignupOutcome(Some(request), Alert("Success", Str(Registered), true))
      else SignupOutcome(Some(request), Alert("Error", FailureMessage(reply), false))
  }

  /** The screen leads on to the login screen only after the server accepted the registration. */
  lemma LoginOnlyAfterRegistration(f: SignupForm, reply: Reply)
    ensures HandleSignup(f, reply).alert.toLogin <==> ValidateForm(f).None? && Ok(reply)
  {
  }

  /** A server that answers 409 is reported as a taken address whatever message it sends. */
  lemma ConflictIgnoresServerMessage(f: SignupForm, body: Json, text: string)
    requires ValidateForm(f).None?
    ensures HandleSignup(f, Response(409, text, body)).alert.message == Str(EmailTaken)
  {
  }
}
