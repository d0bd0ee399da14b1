/**
 * The login screen: the form's four string fields, the trimming input
 * handlers, and `handleLogin`'s validation, request, credential mapping
 * and failure alert.
 */
module LoginScreen {
  import opened Common

  /**
   * The characters `String.prototype.trim` strips: ECMAScript's WhiteSpace
   * (tab, vertical tab, form feed, no-break space, the byte-order mark and
   * every space separator) and LineTerminator (LF, CR, U+2028, U+2029).
   */
  predicate IsJsWhitespace(c: char)
  {
    || c == '\t' || c == '\U{000B}' || c == '\U{000C}' || c == ' ' || c == '\U{00A0}' || c == '\U{FEFF}'
    || c == '\n' || c == '\r' || c == '\U{2028}' || c == '\U{2029}'
    || c == '\U{1680}' || ('\U{2000}' <= c <= '\U{200A}') || c == '\U{202F}' || c == '\U{205F}' || c == '\U{3000}'
  }

  predicate AllWhitespace(s: string)
  {
    forall i :: 0 <= i < |s| ==> IsJsWhitespace(s[i])
  }

  /** `s` with its leading whitespace removed. */
  function TrimStart(s: string): string
    decreases |s|
  {
    if s != [] && IsJsWhitespace(s[0]) then TrimStart(s[1..]) else s
  }

  /** `s` with its trailing whitespace removed. */
  function TrimEnd(s: string): string
    decreases |s|
  {
    if s != [] && IsJsWhitespace(s[|s| - 1]) then TrimEnd(s[..|s| - 1]) else s
  }

  /** `TrimStart` keeps a suffix of `s`: everything before it is whitespace, and it starts with a non-whitespace character. */
  lemma {:induction false} TrimStartSpec(s: string)
    ensures var r := TrimStart(s);
      && |r| <= |s| && r == s[|s| - |r|..]
      && (forall i :: 0 <= i < |s| - |r| ==> IsJsWhitespace(s[i]))
      && (r != [] ==> !IsJsWhitespace(r[0]))
    decreases |s|
  {
    if s != [] && IsJsWhitespace(s[0]) {
      TrimStartSpec(s[1..]);
    }
  }

  /** `TrimEnd` keeps a prefix of `s`: everything after it is whitespace, and it ends with a non-whitespace character. */
  lemma {:induction false} TrimEndSpec(s: string)
    ensures var r := TrimEnd(s);
      && |r| <= |s| && r == s[..|r|]
      && (forall i :: |r| <= i < |s| ==> IsJsWhitespace(s[i]))
      && (r != [] ==> !IsJsWhitespace(r[|r| - 1]))
    decreases |s|
  {
    if s != [] && IsJsWhitespace(s[|s| - 1]) {
      TrimEndSpec(s[..|s| - 1]);
    }
  }

  /** `s.trim()`: leading, then trailing whitespace removed. */
  function Trim(s: string): string
  {
    TrimEnd(TrimStart(s))
  }

  /** How many whitespace characters `trim()` removes from the front of `s`. */
  function LeadingWhitespace(s: string): nat
  {
    TrimStartSpec(s);
    |s| - |TrimStart(s)|
  }

  /**
   * What `trim()` yields: a slice of `s` with no whitespace at either end,
   * everything outside the slice whitespace, and empty exactly when `s`
   * holds only whitespace.
   */
  lemma TrimSpec(s: string)
    ensures var r := Trim(s);
      && LeadingWhitespace(s) + |r| <= |s| && r == s[LeadingWhitespace(s)..LeadingWhitespace(s) + |r|]
      && (forall i :: 0 <= i < LeadingWhitespace(s) ==> IsJsWhitespace(s[i]))
      && (forall i :: LeadingWhitespace(s) + |r| <= i < |s| ==> IsJsWhitespace(s[i]))
      && (r != [] ==> !IsJsWhitespace(r[0]) && !IsJsWhitespace(r[|r| - 1]))
      && (r == [] <==> AllWhitespace(s))
  {
    var u := TrimStart(s);
    var r := TrimEnd(u);
    TrimStartSpec(s);
    TrimEndSpec(u);
    assert r == s[|s| - |u|..|s| - |u| + |r|];
    if r == [] {
      assert u == [];
    } else {
      assert r[0] == u[0];
    }
  }

  /** Trimming an already trimmed string changes nothing. */
  lemma TrimIdempotent(s: string)
    ensures Trim(Trim(s)) == Trim(s)
  {
    var t := Trim(s);
    TrimSpec(s);
    assert TrimStart(t) == t;
    assert TrimEnd(t) == t;
  }

  predicate IsTrimmed(s: string)
  {
    Trim(s) == s
  }

  const UsernameRequired: string := "Username is required"
  const PasswordRequired: string := "Password is required"
  const LoginFailedTitle: string := "Login Failed"
  const DefaultLoginFailure: string := "Invalid username or password"

  /** One field's check: an error message when the trimmed value is empty, and `''` otherwise. */
  function FieldError(value: string, message: string): (e: string)
    requires message != ""
    ensures e == "" <==> !AllWhitespace(value)
    ensures e != "" ==> e == message
  {
    TrimSpec(value);
    if Trim(value) == "" then message else ""
  }

  /** The outcome of the validation step: both error texts and the `isValid` flag. */
  datatype Validation = Validation(usernameError: string, passwordError: string, isValid: bool)

  /**
   * Both fields are checked on every call, independently, so both errors can
   * be shown at once; the form is valid exactly when neither has an error.
   */
  function Validate(username: string, password: string): (v: Validation)
    ensures v.usernameError == FieldError(username, UsernameRequired)
    ensures v.passwordError == FieldError(password, PasswordRequired)
    ensures v.isValid <==> v.usernameError == "" && v.passwordError == ""
    ensures v.isValid <==> !AllWhitespace(username) && !AllWhitespace(password)
  {
    var ue := FieldError(username, UsernameRequired);
    var pe := FieldError(password, PasswordRequired);
    Validation(ue, pe, ue == "" && pe == "")
  }

  /** The body of the `login` mutation. */
  datatype LoginRequest = LoginRequest(username: string, password: string)

  /** The fields of a successful login response that the screen reads. */
  datatype LoginResult = LoginResult(
    id: int, username: string, email: string, firstName: string, lastName: string,
    gender: string, image: string, token: string)

  /** The user record inside the credentials payload. */
  datatype User = User(
    id: int, username: string, email: string, firstName: string, lastName: string,
    gender: string, image: string)

  /** The payload of `setCredentials`. */
  datatype Credentials = Credentials(user: User, token: string)

  /** The body of a failed login: `error.data`, whose `message` may be missing. */
  datatype ErrorBody = ErrorBody(message: Option<string>)

  /** A rejected `login(...).unwrap()`: `error.data` may be missing. */
  datatype LoginError = LoginError(data: Option<ErrorBody>)

  /** What the server answers to a login request. */
  datatype LoginResponse = Succeeded(result: LoginResult) | Rejected(error: LoginError)

  /** Copies the seven user fields and the token of a login response into the credentials payload. */
  function ToCredentials(r: LoginResult): (c: Credentials)
    ensures c.token == r.token && c.user.id == r.id && c.user.username == r.username
    ensures c.user.email == r.email && c.user.firstName == r.firstName && c.user.lastName == r.lastName
    ensures c.user.gender == r.gender && c.user.image == r.image
  {
    Credentials(User(r.id, r.username, r.email, r.firstName, r.lastName, r.gender, r.image), r.token)
  }

  /** The response fields recovered from a credentials payload. */
  function FromCredentials(c: Credentials): LoginResult
  {
    LoginResult(c.user.id, c.user.username, c.user.email, c.user.firstName, c.user.lastName,
      c.user.gender, c.user.image, c.token)
  }

  /** The mapping loses nothing and adds nothing: it is a bijection between the two records. */
  lemma CredentialsMappingIsBijective(r: LoginResult, c: Credentials)
    ensures FromCredentials(ToCredentials(r)) == r
    ensures ToCredentials(FromCredentials(c)) == c
  {
  }

  /** `error?.data?.message || 'Invalid username or password'`: a missing or empty message falls back. */
  function AlertMessage(e: LoginError): (m: string)
    ensures m != ""
    ensures (e.data.Some? && e.data.value.message.Some? && e.data.value.message.value != "") ==> m == e.data.value.message.value
    ensures (e.data.None? || e.data.value.message.None? || e.data.value.message.value == "") ==> m == DefaultLoginFailure
  {
    match e.data
    case Some(ErrorBody(Some(msg))) => if msg != "" then msg else DefaultLoginFailure
    case _ => DefaultLoginFailure
  }

  /**
   * What one press of the login button leads to: nothing when the form is
   * invalid; otherwise a request, then either credentials dispatched and a
   * move to the feed, or an alert.
   */
  datatype LoginEffect =
    | NotSubmitted
    | LoggedIn(request: LoginRequest, credentials: Credentials)
    | LoginFailed(request: LoginRequest, title: string, message: string)

  /**
   * The effect of `handleLogin` for the stored field values; `response` is
   * what the server would answer and matters only when a request is made.
   */
  function LoginEffectOf(username: string, password: string, response: LoginResponse): (eff: LoginEffect)
    ensures eff.NotSubmitted? <==> !Validate(username, password).isValid
    ensures !eff.NotSubmitted? ==> eff.request == LoginRequest(username, password)
    ensures eff.LoggedIn? <==> Validate(username, password).isValid && response.Succeeded?
    ensures eff.LoggedIn? ==> eff.credentials == ToCredentials(response.result)
    ensures eff.LoginFailed? ==> eff.title == LoginFailedTitle && eff.message == AlertMessage(response.error)
  {
    if !Validate(username, password).isValid then NotSubmitted
    else
      var request := LoginRequest(username, password);
      match response
      case Succeeded(result) => LoggedIn(request, ToCredentials(result))
      case Rejected(error) => LoginFailed(request, LoginFailedTitle, AlertMessage(error))
  }

  /**
   * The password is checked in trimmed form but sent exactly as typed:
   * a password padded with spaces passes validation and goes out padded.
   */
  lemma PasswordSentUntrimmed(username: string, response: LoginResponse)
    requires !AllWhitespace(username)
    ensures var eff := LoginEffectOf(username, " secret ", response);
      !eff.NotSubmitted? && eff.request.password == " secret " && Trim(" secret ") == "secret"
  {
    var p := " secret ";
    assert !IsJsWhitespace(p[1]);
    assert TrimStart(p) == p[1..];
    assert TrimEnd(p[1..]) == p[1..7];
  }

  /** A password of spaces alone is refused before any request is made, whatever the username. */
  lemma BlankPasswordNotSubmitted(username: string, response: LoginResponse)
    ensures LoginEffectOf(username, "   ", response) == NotSubmitted
    ensures Validate(username, "   ").passwordError == PasswordRequired
  {
    assert AllWhitespace("   ");
  }

  /** The screen's local form state. */
  class LoginForm {
    var username: string
    var password: string
    var usernameError: string
    var passwordError: string

    /** The stored username is always trimmed, because every keystroke goes through `trim()`. */
    predicate Valid()
      reads this
    {
      IsTrimmed(username)
    }

    constructor ()
      ensures Valid()
      ensures username == "" && password == "" && usernameError == "" && passwordError == ""
    {
      username, password := "", "";
      usernameError, passwordError := "", "";
      assert Trim("") == "";
    }

    /** The username field's `onChangeText`: stores the typed text trimmed. */
    method OnChangeUsername(typed: string)
      modifies this
      ensures Valid()
      ensures username == Trim(typed)
      ensures password == old(password) && usernameError == old(usernameError) && passwordError == old(passwordError)
    {
      var trimmed := Trim(typed);
      TrimIdempotent(typed);
      username := trimmed;
    }

    /** The password field's `onChangeText`: stores the typed text as it is. */
    method OnChangePassword(typed: string)
      requires Valid()
      modifies this
      ensures Valid()
      ensures password == typed
      ensures username == old(username) && usernameError == old(usernameError) && passwordError == old(passwordError)
    {
      password := typed;
    }

    /**
     * `handleLogin`. Sets both error fields, then, only for a valid form,
     * sends the stored username and password and reports what followed.
     */
    method HandleLogin(response: LoginResponse) returns (effect: LoginEffect)
      requires Valid()
      modifies this
      ensures Valid()
      ensures username == old(username) && password == old(password)
      ensures usernameError == Validate(username, password).usernameError
      ensures passwordError == Validate(username, password).passwordError
      ensures effect == LoginEffectOf(username, password, response)
    {
      var isValid := true;
      if Trim(username) == "" {
        usernameError := UsernameRequired;
        isValid := false;
      } else {
        usernameError := "";
      }
      if Trim(password) == "" {
        passwordError := PasswordRequired;
        isValid := false;
      } else {
        passwordError := "";
      }
      if !isValid {
        return NotSubmitted;
      }
      var request := LoginRequest(username, password);
      match response {
        case Succeeded(result) =>
          effect := LoggedIn(request, ToCredentials(result));
        case Rejected(error) =>
          effect := LoginFailed(request, LoginFailedTitle, AlertMessage(error));
      }
    }
  }
}
