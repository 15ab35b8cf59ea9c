/** The mock session provider: restoring a stored session, login, register,
    logout and the authenticated flag (src/context/AuthContext.tsx).

    Local storage, the simulated delay and the navigation after success are
    not modelled: the stored values are parameters of `Restore`, and `Login`
    and `Register` describe the state once their `finally` block has run. */
module Auth {
  import opened Wrappers
  import opened Text

  datatype User = User(id: string, email: string, firstName: string, lastName: string)

  const MockUserId: string := "123"
  const MockToken: string := "mock-jwt-token"
  const MockLastName: string := "User"
  const MinPasswordLength: nat := 6

  /** A string is truthy in JavaScript exactly when it is non-empty; `null` is
      falsy. */
  predicate Present(s: Option<string>) {
    s.Some? && |s.value| > 0
  }

  /** The user a successful login creates: the name is the part of the email
      before its first `@`. */
  function LoginUser(email: string): User {
    User(MockUserId, email, BeforeFirst(email, '@'), MockLastName)
  }

  /** The first name is the whole email when it has no `@`; otherwise it is the
      text before the first `@`, and the email continues with that `@`. */
  lemma LoginUserName(email: string)
    ensures '@' !in email ==> LoginUser(email).firstName == email
    ensures '@' in email ==>
      var first := LoginUser(email).firstName;
      first + ['@'] <= email && '@' !in first
  {
    var first := BeforeFirst(email, '@');
    if '@' in email {
      assert (first + ['@']) == email[..|first| + 1];
    }
  }

  class AuthSession {
    var user: Option<User>
    var token: Option<string>
    var loading: bool

    /** Before the restoring effect runs: nobody is signed in and the provider
        is loading. */
    constructor ()
      ensures user == None && token == None && loading
    {
      user := None;
      token := None;
      loading := true;
    }

    /** `isAuthenticated: !!token` */
    function IsAuthenticated(): bool
      reads this
    {
      Present(token)
    }

    /** The mount effect: a stored session is taken over only when both the
        token and the serialized user are present; `parse` is `JSON.parse`.
        Loading ends either way. */
    method Restore(storedToken: Option<string>, storedUser: Option<string>, parse: string -> User)
      modifies this
      ensures Present(storedToken) && Present(storedUser) ==>
        token == storedToken && user == Some(parse(storedUser.value))
      ensures !(Present(storedToken) && Present(storedUser)) ==>
        token == old(token) && user == old(user)
      ensures !loading
    {
      if Present(storedToken) && Present(storedUser) {
        token := storedToken;
        user := Some(parse(storedUser.value));
      }
      loading := false;
    }

    /** `login(email, password)`: rejected exactly for a password shorter than
        six characters, which leaves the session as it was. */
    method Login(email: string, password: string) returns (ok: bool)
      modifies this
      ensures ok <==> Utf16Length(password) >= MinPasswordLength
      ensures ok ==> user == Some(LoginUser(email)) && token == Some(MockToken)
      ensures !ok ==> user == old(user) && token == old(token)
      ensures !loading
    {
      loading := true;
      if Utf16Length(password) < MinPasswordLength {
        ok := false;
      } else {
        user := Some(LoginUser(email));
        token := Some(MockToken);
        ok := true;
      }
      loading := false;
    }

    /** `register(...)`: no check at all; the given details become the user. */
    method Register(email: string, password: string, firstName: string, lastName: string)
      modifies this
      ensures user == Some(User(MockUserId, email, firstName, lastName))
      ensures token == Some(MockToken)
      ensures !loading
    {
      loading := true;
      user := Some(User(MockUserId, email, firstName, lastName));
      token := Some(MockToken);
      loading := false;
    }

    method Logout()
      modifies this
      ensures user == None && token == None && loading == old(loading)
    {
      user := None;
      token := None;
    }
  }

  /** Signing in succeeds with a long enough password and authenticates;
      logging out afterwards ends the session; a second login with the same
      details gives the same user. */
  method LoginLogoutLogin(email: string, password: string) returns (first: Option<User>, second: Option<User>)
    requires Utf16Length(password) >= MinPasswordLength
    ensures first == Some(LoginUser(email)) && second == first
  {
    var session := new AuthSession();
    var ok := session.Login(email, password);
    assert session.IsAuthenticated();
    first := session.user;
    session.Logout();
    assert !session.IsAuthenticated();
    ok := session.Login(email, password);
    second := session.user;
  }
}
