/** The login and registration pages of `AuthController`. Request
    parameters are `Option<string>`. For `showLoginForm`, whose parameters
    are optional, `None` is an absent parameter; for `registerUser`, whose
    parameters are required (an absent one is refused with status 400
    before the controller runs), `None` is a null passed by a direct call;
    a page is the view name the controller returns together with the
    attributes it puts in the model or, for a redirect, in the flash
    scope. Registration stores nothing: it only validates and redirects. */
module Auth {
  import opened Common

  /** A view name and the attributes handed to it. */
  datatype Page = Page(view: string, attributes: map<string, string>)

  const LoginView := "login"
  const RegisterRedirect := "redirect:/register"
  const LoginRedirect := "redirect:/login"

  const BadCredentials := "Invalid username or password."
  const LoggedOut := "You have been logged out successfully."
  const UsernameRequired := "Username is required."
  const PasswordRequired := "Password is required."
  const PasswordsDiffer := "Passwords do not match."
  const EmailRequired := "Email is required."
  const RoleRequired := "Role is required."
  const Registered := "Registration successful! Please login with your new credentials."

  /** `GET /login`: the login view, with an "error" attribute exactly when
      the `error` parameter is present and a "message" attribute exactly
      when the `logout` parameter is present, whatever their values. */
  function ShowLoginForm(error: Option<string>, logout: Option<string>): (r: Page)
    ensures r.view == LoginView
    ensures "error" in r.attributes <==> error.Some?
    ensures "message" in r.attributes <==> logout.Some?
    ensures forall k :: k in r.attributes ==> k == "error" || k == "message"
    ensures "error" in r.attributes ==> r.attributes["error"] == BadCredentials
    ensures "message" in r.attributes ==> r.attributes["message"] == LoggedOut
  {
    var withError := if error.Some? then map["error" := BadCredentials] else map[];
    var withMessage := if logout.Some? then withError["message" := LoggedOut] else withError;
    Page(LoginView, withMessage)
  }

  /** Back to the registration form with one error message. */
  function Rejected(message: string): Page
  {
    Page(RegisterRedirect, map["error" := message])
  }

  /** On to the login form with the success message. */
  function Accepted(): Page
  {
    Page(LoginRedirect, map["message" := Registered])
  }

  /** `POST /register`: the checks run in order, username, password,
      password confirmation, email, role, and the first that fails decides
      the error. Blank means null or only characters up to U+0020, which
      is Java's `s == null || s.trim().isEmpty()` (see `BlankIsTrimEmpty`);
      the confirmation must equal the password exactly, and a null one
      never does. */
  function RegisterUser(username: Option<string>, password: Option<string>, confirmPassword: Option<string>,
                        email: Option<string>, role: Option<string>): (r: Page)
    ensures r.view == RegisterRedirect || r.view == LoginRedirect
    ensures |r.attributes| == 1
  {
    if IsBlank(username) then Rejected(UsernameRequired)
    else if IsBlank(password) then Rejected(PasswordRequired)
    else if confirmPassword != password then Rejected(PasswordsDiffer)
    else if IsBlank(email) then Rejected(EmailRequired)
    else if IsBlank(role) then Rejected(RoleRequired)
    else Accepted()
  }

  /** One registration check: whether it fails, and the message it gives. */
  datatype Check = Check(fails: bool, message: string)

  /** The registration checks as a list, in the order they are made. The
      confirmation check is listed as a plain inequality: it is only
      reached with a present password, and when the password is blank the
      check before it already fails. */
  function RegistrationChecks(username: Option<string>, password: Option<string>, confirmPassword: Option<string>,
                              email: Option<string>, role: Option<string>): seq<Check>
  {
    [ Check(IsBlank(username), UsernameRequired),
      Check(IsBlank(password), PasswordRequired),
      Check(confirmPassword != password, PasswordsDiffer),
      Check(IsBlank(email), EmailRequired),
      Check(IsBlank(role), RoleRequired) ]
  }

  /** The message of the first failing check, if any. */
  function FirstFailure(checks: seq<Check>): (m: Option<string>)
    ensures m.None? <==> forall i :: 0 <= i < |checks| ==> !checks[i].fails
  {
    if checks == [] then None
    else if checks[0].fails then Some(checks[0].message)
    else
      assert forall i :: 1 <= i < |checks| ==> checks[i] == checks[1..][i - 1];
      FirstFailure(checks[1..])
  }

  /** The message reported is that of a failing check with no failing
      check before it. */
  lemma {:induction false} FirstFailureIsFirst(checks: seq<Check>)
    requires FirstFailure(checks).Some?
    ensures exists i :: 0 <= i < |checks| && checks[i].fails && checks[i].message == FirstFailure(checks).value
                        && forall j :: 0 <= j < i ==> !checks[j].fails
  {
    if !checks[0].fails {
      var rest := checks[1..];
      FirstFailureIsFirst(rest);
      var k :| 0 <= k < |rest| && rest[k].fails && rest[k].message == FirstFailure(rest).value
               && forall j :: 0 <= j < k ==> !rest[j].fails;
      assert checks[k + 1] == rest[k];
      assert forall j :: 1 <= j < k + 1 ==> checks[j] == rest[j - 1];
    }
  }

  /** On a list of five checks, the first failure is found by trying them
      one after another. */
  lemma FirstOfFive(c0: Check, c1: Check, c2: Check, c3: Check, c4: Check)
    ensures FirstFailure([c0, c1, c2, c3, c4])
      == if c0.fails then Some(c0.message)
         else if c1.fails then Some(c1.message)
         else if c2.fails then Some(c2.message)
         else if c3.fails then Some(c3.message)
         else if c4.fails then Some(c4.message)
         else None
  {
    assert [c0, c1, c2, c3, c4][1..] == [c1, c2, c3, c4];
    assert [c1, c2, c3, c4][1..] == [c2, c3, c4];
    assert [c2, c3, c4][1..] == [c3, c4];
    assert [c3, c4][1..] == [c4];
    assert FirstFailure([c4]) == if c4.fails then Some(c4.message) else FirstFailure([]);
    assert FirstFailure([c3, c4]) == if c3.fails then Some(c3.message) else FirstFailure([c4]);
    assert FirstFailure([c2, c3, c4]) == if c2.fails then Some(c2.message) else FirstFailure([c3, c4]);
    assert FirstFailure([c1, c2, c3, c4]) == if c1.fails then Some(c1.message) else FirstFailure([c2, c3, c4]);
  }

  /** The controller's chain of ifs is exactly "first failing check wins":
      it rejects with the message of the first check in the list that
      fails, and accepts when none does. */
  lemma RegisterIsFirstFailure(username: Option<string>, password: Option<string>, confirmPassword: Option<string>,
                               email: Option<string>, role: Option<string>)
    ensures var f := FirstFailure(RegistrationChecks(username, password, confirmPassword, email, role));
      RegisterUser(username, password, confirmPassword, email, role)
        == if f.Some? then Rejected(f.value) else Accepted()
  {
    FirstOfFive(Check(IsBlank(username), UsernameRequired),
                Check(IsBlank(password), PasswordRequired),
                Check(confirmPassword != password, PasswordsDiffer),
                Check(IsBlank(email), EmailRequired),
                Check(IsBlank(role), RoleRequired));
  }

  /** Registration succeeds exactly when every field is present and not
      blank and the confirmation equals the password. */
  lemma RegisterSucceedsIff(username: Option<string>, password: Option<string>, confirmPassword: Option<string>,
                            email: Option<string>, role: Option<string>)
    ensures var r := RegisterUser(username, password, confirmPassword, email, role);
      (r.view == LoginRedirect
       <==> !IsBlank(username) && !IsBlank(password) && confirmPassword == password
            && !IsBlank(email) && !IsBlank(role))
    ensures var r := RegisterUser(username, password, confirmPassword, email, role);
      r.view == LoginRedirect ==> r == Accepted()
    ensures var r := RegisterUser(username, password, confirmPassword, email, role);
      r.view == RegisterRedirect ==> "error" in r.attributes && "message" !in r.attributes
  {
  }

  /** A blank username is reported first, whatever the other fields hold. */
  lemma BlankUsernameWins(username: Option<string>, password: Option<string>, confirmPassword: Option<string>,
                          email: Option<string>, role: Option<string>)
    requires IsBlank(username)
    ensures RegisterUser(username, password, confirmPassword, email, role) == Rejected(UsernameRequired)
  {
  }

  /** With username and password given, the confirmation is compared
      exactly: no trimming and no case folding, and a missing one differs. */
  lemma ConfirmationIsExact(username: Option<string>, password: Option<string>, confirmPassword: Option<string>,
                            email: Option<string>, role: Option<string>)
    requires !IsBlank(username) && !IsBlank(password)
    ensures RegisterUser(username, password, confirmPassword, email, role) == Rejected(PasswordsDiffer)
            <==> confirmPassword != password
  {
  }

  /** For instance a trailing space, a letter in another case, or a null
      confirmation passed by a direct call, is a mismatch. */
  lemma ConfirmationExamples()
    ensures RegisterUser(Some("ann"), Some("secret"), Some("secret "), Some("a@b.c"), Some("USER"))
            == Rejected(PasswordsDiffer)
    ensures RegisterUser(Some("ann"), Some("secret"), Some("Secret"), Some("a@b.c"), Some("USER"))
            == Rejected(PasswordsDiffer)
    ensures RegisterUser(Some("ann"), Some("secret"), None, Some("a@b.c"), Some("USER"))
            == Rejected(PasswordsDiffer)
  {
    assert "ann"[0] > ' ' && "secret"[0] > ' ';
    assert "secret" != "secret ";
    assert "secret"[0] != "Secret"[0];
  }
}
