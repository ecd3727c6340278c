/** The sign-up page: the two checks it runs before calling `register`, and the body it sends. */
module RegisterForm {
  import opened Common
  import opened UserSchema

  /** The form state; `role` is one of the three radio buttons. */
  datatype Form = Form(name: string, email: string, phone: string, password: string,
                       confirmPassword: string, address: string, role: Role)

  /** The form as the page first shows it: every field blank and the client role chosen. */
  const InitialForm := Form("", "", "", "", "", "", Client)

  /** The body handed to `register`: the form without the confirmation. */
  datatype Payload = Payload(name: string, email: string, phone: string, password: string,
                             address: string, role: Role)

  /** Refused with a message and no call, or sent. */
  datatype Submission = PasswordMismatch | PasswordTooShort | Register(payload: Payload)

  /** `handleSubmit`: the confirmation must equal the password, then the password must have at
      least six characters; only then is the body sent. */
  function Submit(f: Form): (r: Submission)
    ensures r == PasswordMismatch <==> f.password != f.confirmPassword
    ensures r == PasswordTooShort <==> (f.password == f.confirmPassword && |f.password| < PasswordMinLength)
    ensures r.Register? <==> (f.password == f.confirmPassword && |f.password| >= PasswordMinLength)
    ensures r.Register? ==> r.payload.password == f.confirmPassword
  {
    if f.password != f.confirmPassword then PasswordMismatch
    else if |f.password| < PasswordMinLength then PasswordTooShort
    else Register(Payload(f.name, f.email, f.phone, f.password, f.address, f.role))
  }

  /** The mismatch check comes first: a short password that does not match its confirmation is
      reported as a mismatch. */
  lemma MismatchReportedFirst(f: Form)
    requires f.password != f.confirmPassword && |f.password| < PasswordMinLength
    ensures Submit(f) == PasswordMismatch
  {
  }

  /** The blank form is refused as too short, so nothing is sent before the user types. */
  lemma InitialFormRefused()
    ensures Submit(InitialForm) == PasswordTooShort
  {
  }

  /** The body carries every field of the form except the confirmation, the chosen role
      included, whatever that role is. */
  lemma PayloadIsFormWithoutConfirmation(f: Form)
    requires Submit(f).Register?
    ensures Submit(f).payload == Payload(f.name, f.email, f.phone, f.password, f.address, f.role)
    ensures Submit(f.(role := Admin)) == Register(Submit(f).payload.(role := Admin))
  {
  }

  /** The body as the user document's validators read it. */
  function AsUserInput(p: Payload): (u: UserInput)
    ensures u.password == Some(p.password) && u.role == Some(RoleName(p.role))
  {
    UserInput(Some(p.name), Some(p.email), Some(p.phone), Some(p.password), Some(RoleName(p.role)),
              Some(p.address), None, None)
  }

  /** What the form lets through passes the user schema's password bound and role enum; the
      name, email and phone validators are left to the server. */
  lemma SentBodyMeetsPasswordAndRole(f: Form)
    requires Submit(f).Register?
    ensures var u := AsUserInput(Submit(f).payload);
      |u.password.value| >= PasswordMinLength && ParseRole(u.role.value).Some?
  {
    var r := Submit(f).payload.role;
    assert ParseRole(RoleName(r)) == Some(r) by {
      match r
      case Client =>
      case Admin =>
      case Personnel =>
    }
  }

  /** The form checks nothing about the email: a sent body can hold an address the user schema
      refuses. */
  lemma EmailNotChecked()
    ensures var f := Form("Ali", "", "12345678", "secret", "secret", "", Client);
      Submit(f).Register? && !EmailValid(Submit(f).payload.email)
  {
  }
}
