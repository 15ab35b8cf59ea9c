/** The sign-in and sign-up forms: the two validation schemas, the password
    refinement and what a submission hands to the session (src/pages/Auth.tsx).

    The email format check belongs to the validation library; it is the
    parameter `isEmail`. Every field of both forms is a string from its first
    render, so no issue stops validation early: each field reports its own rule
    and the refinement on the whole object runs as well. */
module AuthForms {
  import opened Wrappers
  import Auth
  import opened Text

  datatype Field = FirstName | LastName | Email | Password | ConfirmPassword

  datatype Issue = Issue(field: Field, message: string)

  const EmailMessage: string := "Please enter a valid email address"
  const PasswordMessage: string := "Password must be at least 6 characters"
  const FirstNameMessage: string := "First name must be at least 2 characters"
  const LastNameMessage: string := "Last name must be at least 2 characters"
  const MismatchMessage: string := "Passwords do not match"

  const MinNameLength: nat := 2
  const MinPasswordLength: nat := 6

  datatype LoginValues = LoginValues(email: string, password: string)

  datatype RegisterValues = RegisterValues(firstName: string, lastName: string, email: string,
                                           password: string, confirmPassword: string)

  /** A rule's issue, or none when the rule holds. */
  function Check(ok: bool, field: Field, message: string): seq<Issue> {
    if ok then [] else [Issue(field, message)]
  }

  predicate HasIssue(issues: seq<Issue>, field: Field) {
    exists i :: 0 <= i < |issues| && issues[i].field == field
  }

  /** `loginSchema`, issues in field order. */
  function LoginIssues(v: LoginValues, isEmail: string -> bool): seq<Issue> {
    Check(isEmail(v.email), Email, EmailMessage)
    + Check(Utf16Length(v.password) >= MinPasswordLength, Password, PasswordMessage)
  }

  /** `registerSchema`: the five field rules in field order, then the
      refinement, whose issue is attached to `confirmPassword`. */
  function RegisterIssues(v: RegisterValues, isEmail: string -> bool): seq<Issue> {
    RegisterFieldIssues(v, isEmail)
    + Check(v.password == v.confirmPassword, ConfirmPassword, MismatchMessage)
  }

  lemma HasIssueConcat(x: seq<Issue>, y: seq<Issue>, field: Field)
    ensures HasIssue(x + y, field) <==> HasIssue(x, field) || HasIssue(y, field)
  {
    if HasIssue(x + y, field) {
      var i :| 0 <= i < |x + y| && (x + y)[i].field == field;
      if i >= |x| {
        assert y[i - |x|].field == field;
      }
    }
    if HasIssue(x, field) {
      var i :| 0 <= i < |x| && x[i].field == field;
      assert (x + y)[i].field == field;
    }
    if HasIssue(y, field) {
      var i :| 0 <= i < |y| && y[i].field == field;
      assert (x + y)[|x| + i].field == field;
    }
  }

  lemma HasIssueCheck(ok: bool, f: Field, message: string, field: Field)
    ensures HasIssue(Check(ok, f, message), field) <==> !ok && f == field
  {
    if !ok {
      assert Check(ok, f, message)[0].field == f;
    }
  }

  /** The sign-in form is valid exactly when the email is well formed and the
      password has at least six characters; each broken rule reports on its
      own field. */
  lemma LoginIssuesMeaning(v: LoginValues, isEmail: string -> bool)
    ensures |LoginIssues(v, isEmail)| == 0 <==> isEmail(v.email) && Utf16Length(v.password) >= MinPasswordLength
    ensures forall field :: HasIssue(LoginIssues(v, isEmail), field) <==>
      (field == Email && !isEmail(v.email)) || (field == Password && Utf16Length(v.password) < MinPasswordLength)
  {
    forall field
      ensures HasIssue(LoginIssues(v, isEmail), field) <==>
        (field == Email && !isEmail(v.email)) || (field == Password && Utf16Length(v.password) < MinPasswordLength)
    {
      var e := Check(isEmail(v.email), Email, EmailMessage);
      var p := Check(Utf16Length(v.password) >= MinPasswordLength, Password, PasswordMessage);
      HasIssueConcat(e, p, field);
      HasIssueCheck(isEmail(v.email), Email, EmailMessage, field);
      HasIssueCheck(Utf16Length(v.password) >= MinPasswordLength, Password, PasswordMessage, field);
    }
  }

  /** The five field rules of the sign-up form, in field order. */
  function RegisterFieldIssues(v: RegisterValues, isEmail: string -> bool): seq<Issue> {
    Check(Utf16Length(v.firstName) >= MinNameLength, FirstName, FirstNameMessage)
    + Check(Utf16Length(v.lastName) >= MinNameLength, LastName, LastNameMessage)
    + Check(isEmail(v.email), Email, EmailMessage)
    + Check(Utf16Length(v.password) >= MinPasswordLength, Password, PasswordMessage)
    + Check(Utf16Length(v.confirmPassword) >= MinPasswordLength, ConfirmPassword, PasswordMessage)
  }

  /** The rule each field of the sign-up form is held to. */
  predicate FieldBroken(v: RegisterValues, isEmail: string -> bool, field: Field) {
    match field
    case FirstName => Utf16Length(v.firstName) < MinNameLength
    case LastName => Utf16Length(v.lastName) < MinNameLength
    case Email => !isEmail(v.email)
    case Password => Utf16Length(v.password) < MinPasswordLength
    case ConfirmPassword => Utf16Length(v.confirmPassword) < MinPasswordLength
  }

  lemma RegisterFieldIssuesMeaning(v: RegisterValues, isEmail: string -> bool, field: Field)
    ensures HasIssue(RegisterFieldIssues(v, isEmail), field) <==> FieldBroken(v, isEmail, field)
  {
    var a := Check(Utf16Length(v.firstName) >= MinNameLength, FirstName, FirstNameMessage);
    var b := Check(Utf16Length(v.lastName) >= MinNameLength, LastName, LastNameMessage);
    var c := Check(isEmail(v.email), Email, EmailMessage);
    var d := Check(Utf16Length(v.password) >= MinPasswordLength, Password, PasswordMessage);
    var e := Check(Utf16Length(v.confirmPassword) >= MinPasswordLength, ConfirmPassword, PasswordMessage);
    HasIssueConcat(a + b + c + d, e, field);
    HasIssueConcat(a + b + c, d, field);
    HasIssueConcat(a + b, c, field);
    HasIssueConcat(a, b, field);
    HasIssueCheck(Utf16Length(v.firstName) >= MinNameLength, FirstName, FirstNameMessage, field);
    HasIssueCheck(Utf16Length(v.lastName) >= MinNameLength, LastName, LastNameMessage, field);
    HasIssueCheck(isEmail(v.email), Email, EmailMessage, field);
    HasIssueCheck(Utf16Length(v.password) >= MinPasswordLength, Password, PasswordMessage, field);
    HasIssueCheck(Utf16Length(v.confirmPassword) >= MinPasswordLength, ConfirmPassword, PasswordMessage, field);
  }

  /** The sign-up form is valid exactly when both names have at least two
      characters, the email is well formed, both passwords have at least six
      characters and they are equal. Each field rule reports on its own field,
      and a mismatch reports on `confirmPassword` whatever else is wrong. */
  lemma RegisterIssuesMeaning(v: RegisterValues, isEmail: string -> bool)
    ensures |RegisterIssues(v, isEmail)| == 0 <==>
      && Utf16Length(v.firstName) >= MinNameLength && Utf16Length(v.lastName) >= MinNameLength
      && isEmail(v.email)
      && Utf16Length(v.password) >= MinPasswordLength && Utf16Length(v.confirmPassword) >= MinPasswordLength
      && v.password == v.confirmPassword
    ensures forall field :: FieldBroken(v, isEmail, field) ==> HasIssue(RegisterIssues(v, isEmail), field)
    ensures forall field :: field != ConfirmPassword ==>
      (HasIssue(RegisterIssues(v, isEmail), field) <==> FieldBroken(v, isEmail, field))
    ensures Issue(ConfirmPassword, MismatchMessage) in RegisterIssues(v, isEmail) <==> v.password != v.confirmPassword
    ensures HasIssue(RegisterIssues(v, isEmail), ConfirmPassword) <==>
      Utf16Length(v.confirmPassword) < MinPasswordLength || v.password != v.confirmPassword
  {
    var fields := RegisterFieldIssues(v, isEmail);
    var m := Check(v.password == v.confirmPassword, ConfirmPassword, MismatchMessage);
    assert RegisterIssues(v, isEmail) == fields + m;
    forall field
      ensures HasIssue(RegisterIssues(v, isEmail), field) <==>
        FieldBroken(v, isEmail, field) || (field == ConfirmPassword && v.password != v.confirmPassword)
    {
      RegisterFieldIssuesMeaning(v, isEmail, field);
      HasIssueConcat(fields, m, field);
      HasIssueCheck(v.password == v.confirmPassword, ConfirmPassword, MismatchMessage, field);
    }
    assert Issue(ConfirmPassword, MismatchMessage) !in fields by {
      assert forall i :: 0 <= i < |fields| ==> fields[i].message != MismatchMessage;
    }
    if |RegisterIssues(v, isEmail)| != 0 {
      var i := RegisterIssues(v, isEmail)[0].field;
      assert HasIssue(RegisterIssues(v, isEmail), i);
    }
    if !FieldBroken(v, isEmail, FirstName) && !FieldBroken(v, isEmail, LastName) && !FieldBroken(v, isEmail, Email)
       && !FieldBroken(v, isEmail, Password) && !FieldBroken(v, isEmail, ConfirmPassword)
       && v.password == v.confirmPassword {
      if |RegisterIssues(v, isEmail)| != 0 {
        assert HasIssue(RegisterIssues(v, isEmail), RegisterIssues(v, isEmail)[0].field);
      }
    }
  }

  /** What a submission hands to the session. */
  datatype SessionCall =
    | LoginCall(email: string, password: string)
    | RegisterCall(email: string, password: string, firstName: string, lastName: string)

  /** The resolver runs the handler only for a valid form, which passes the
      entered values on unchanged. */
  function SubmitLogin(v: LoginValues, isEmail: string -> bool): (r: Option<SessionCall>)
    ensures r.Some? <==> isEmail(v.email) && Utf16Length(v.password) >= MinPasswordLength
    ensures r.Some? ==> r.value == LoginCall(v.email, v.password)
  {
    LoginIssuesMeaning(v, isEmail);
    if |LoginIssues(v, isEmail)| == 0 then Some(LoginCall(v.email, v.password)) else None
  }

  /** The confirmation is checked by the form and not passed on. */
  function SubmitRegister(v: RegisterValues, isEmail: string -> bool): (r: Option<SessionCall>)
    ensures r.Some? <==> |RegisterIssues(v, isEmail)| == 0
    ensures r.Some? ==>
      v.password == v.confirmPassword && r.value == RegisterCall(v.email, v.password, v.firstName, v.lastName)
  {
    RegisterIssuesMeaning(v, isEmail);
    if |RegisterIssues(v, isEmail)| == 0
    then Some(RegisterCall(v.email, v.password, v.firstName, v.lastName))
    else None
  }

  /** Submitting the sign-in form: nothing happens to the session for an
      invalid form, and a valid one always signs in, since the form demands at
      least the password length the mock session checks. */
  method SubmitLoginForm(session: Auth.AuthSession, v: LoginValues, isEmail: string -> bool)
    returns (signedIn: bool)
    modifies session
    ensures signedIn <==> SubmitLogin(v, isEmail).Some?
    ensures signedIn ==> session.user == Some(Auth.LoginUser(v.email)) && session.IsAuthenticated()
    ensures !signedIn ==>
      session.user == old(session.user) && session.token == old(session.token) && session.loading == old(session.loading)
  {
    signedIn := false;
    match SubmitLogin(v, isEmail)
    case Some(LoginCall(email, password)) =>
      signedIn := session.Login(email, password);
    case _ =>
  }

  /** Submitting the sign-up form: a valid one registers the entered names. */
  method SubmitRegisterForm(session: Auth.AuthSession, v: RegisterValues, isEmail: string -> bool)
    returns (registered: bool)
    modifies session
    ensures registered <==> |RegisterIssues(v, isEmail)| == 0
    ensures registered ==>
      session.user == Some(Auth.User(Auth.MockUserId, v.email, v.firstName, v.lastName)) && session.IsAuthenticated()
    ensures !registered ==>
      session.user == old(session.user) && session.token == old(session.token) && session.loading == old(session.loading)
  {
    registered := false;
    match SubmitRegister(v, isEmail)
    case Some(RegisterCall(email, password, firstName, lastName)) =>
      session.Register(email, password, firstName, lastName);
      registered := true;
    case _ =>
  }
}
