/** The sign-in / sign-up page: the mode toggle, the group-code input's
    normalisation, the request a submission sends, and the error and loading
    state around it. */
module AuthPage {
  import opened Wrappers
  import opened Types
  import JsText
  import Server

  /** The group-code input: whitespace removed, then upper-cased. */
  function NormaliseGroupCode(raw: string): (r: string)
    ensures |r| <= |raw|
    ensures forall i :: 0 <= i < |r| ==> !JsText.IsSpace(r[i])
  {
    var compact := JsText.RemoveSpaces(raw);
    JsText.UpperKeepsSpaces(compact);
    JsText.Upper(compact)
  }

  /** Normalising twice gives the same code, and the code is already in the
      upper-case form the server stores. */
  lemma NormaliseGroupCodeIdempotent(raw: string)
    ensures NormaliseGroupCode(NormaliseGroupCode(raw)) == NormaliseGroupCode(raw)
    ensures JsText.Upper(NormaliseGroupCode(raw)) == NormaliseGroupCode(raw)
  {
    var once := NormaliseGroupCode(raw);
    JsText.RemoveSpacesOfSpaceFree(once);
    JsText.UpperIdempotent(JsText.RemoveSpaces(raw));
  }

  /** What a submission asks the server for. */
  datatype AuthRequest =
    | LoginRequest(email: string, password: string)
    | SignupRequest(body: SignupBody)

  /** The sign-up body as the page builds it: the typed password is not
      passed on, so the server falls back to its default password. */
  function SignupBodyAsWritten(name: string, email: string, role: Role, groupCode: string, password: string): (b: SignupBody)
    ensures b.password.None?
  {
    SignupBody(name, email, role, groupCode, None)
  }

  /** The sign-up body with the typed password passed on. */
  function SignupBodyCorrected(name: string, email: string, role: Role, groupCode: string, password: string): (b: SignupBody)
    ensures b.password == Some(password)
  {
    SignupBody(name, email, role, groupCode, Some(password))
  }

  /** The store after a successful sign-up finds the new user by the e-mail it was created with. */
  lemma NewUserIsFound(users: seq<Server.UserRecord>, u: Server.UserRecord)
    requires Server.FindByEmail(users, u.email).None?
    ensures Server.FindByEmail(users + [u], u.email) == Some(u)
  {
    var s := users + [u];
    assert s[|users|] == u;
    JsText.EqualsIgnoringCaseIsEquivalence(u.email, u.email, u.email);
    assert forall i :: 0 <= i < |users| ==> s[i] == users[i];
  }

  /** As written, a user who signs up with a password of their own cannot
      then log in with it: the stored password is the default one. */
  lemma SignupAsWrittenLosesPassword(users: seq<Server.UserRecord>, name: string, email: string, role: Role,
                                     groupCode: string, password: string, id: string)
    requires Server.FindByEmail(users, email).None?
    requires password != Server.DefaultPassword
    ensures var u := Server.NewUser(SignupBodyAsWritten(name, email, role, groupCode, password), id);
            Server.FindByEmail(users + [u], email) == Some(u) && u.password != password
  {
    var u := Server.NewUser(SignupBodyAsWritten(name, email, role, groupCode, password), id);
    NewUserIsFound(users, u);
  }

  /** With the password passed on, the account signed up with a (required,
      hence non-empty) password logs in with that password. */
  lemma SignupCorrectedKeepsPassword(users: seq<Server.UserRecord>, name: string, email: string, role: Role,
                                     groupCode: string, password: string, id: string)
    requires Server.FindByEmail(users, email).None?
    requires password != ""
    ensures var u := Server.NewUser(SignupBodyCorrected(name, email, role, groupCode, password), id);
            Server.FindByEmail(users + [u], email) == Some(u) && u.password == password
  {
    var u := Server.NewUser(SignupBodyCorrected(name, email, role, groupCode, password), id);
    NewUserIsFound(users, u);
  }

  /** The text shown for a failed submission. */
  function ErrorText(message: string): (t: string)
    ensures t != ""
    ensures message != "" ==> t == message
  {
    if message != "" then message else "An error occurred"
  }

  const DemoEmail := "alex@example.com"
  const DemoPassword := "password123"

  class Page {
    var isLogin: bool
    var loading: bool
    var error: string
    var email: string
    var password: string
    var name: string
    var role: Role
    var groupCode: string

    constructor ()
      ensures isLogin && !loading && error == ""
      ensures email == "" && password == "" && name == "" && role == Member && groupCode == ""
    {
      isLogin, loading, error := true, false, "";
      email, password, name, role, groupCode := "", "", "", Member, "";
    }

    /** The "Sign up" / "Log in" link: the mode flips and the error clears. */
    method ToggleMode()
      modifies this
      ensures isLogin == !old(isLogin) && error == ""
      ensures loading == old(loading) && email == old(email) && password == old(password)
      ensures name == old(name) && role == old(role) && groupCode == old(groupCode)
    {
      isLogin := !isLogin;
      error := "";
    }

    /** The name, e-mail, password and role inputs. */
    method EditFields(name': string, email': string, password': string, role': Role)
      modifies this
      ensures name == name' && email == email' && password == password' && role == role'
      ensures isLogin == old(isLogin) && loading == old(loading) && error == old(error) && groupCode == old(groupCode)
    {
      name, email, password, role := name', email', password', role';
    }

    /** The group-code input keeps only the normalised text. */
    method SetGroupCode(raw: string)
      modifies this
      ensures groupCode == NormaliseGroupCode(raw)
      ensures isLogin == old(isLogin) && loading == old(loading) && error == old(error)
      ensures email == old(email) && password == old(password) && name == old(name) && role == old(role)
    {
      groupCode := NormaliseGroupCode(raw);
    }

    /** "Use Demo Credentials". */
    method FillDemoData()
      modifies this
      ensures email == DemoEmail && password == DemoPassword
      ensures isLogin == old(isLogin) && loading == old(loading) && error == old(error)
      ensures name == old(name) && role == old(role) && groupCode == old(groupCode)
    {
      email, password := DemoEmail, DemoPassword;
    }

    /** The browser lets the form through only when every shown `required`
        input is filled in: e-mail and password, and in sign-up mode also
        the name and the group code. */
    predicate RequiredFilled()
      reads this
    {
      email != "" && password != "" && (isLogin || (name != "" && groupCode != ""))
    }

    /** The request for the current mode.  In sign-up mode the page passes
        name, e-mail, role and group code, but not the typed password. */
    function Request(): (r: AuthRequest)
      reads this
      ensures isLogin <==> r.LoginRequest?
      ensures r.LoginRequest? ==> r.email == email && r.password == password
      ensures r.SignupRequest? ==> r.body == SignupBody(name, email, role, groupCode, None)
      ensures r.SignupRequest? ==> r.body.password.None?
    {
      if isLogin then LoginRequest(email, password)
      else SignupRequest(SignupBodyAsWritten(name, email, role, groupCode, password))
    }

    /** The synchronous part of `handleSubmit`: a disabled button or an
        unfilled required input sends nothing; otherwise the error clears,
        loading starts and the request goes out. */
    method BeginSubmit() returns (sent: Option<AuthRequest>)
      modifies this
      ensures old(loading) || !old(RequiredFilled()) ==> sent.None? && error == old(error) && loading == old(loading)
      ensures !old(loading) && old(RequiredFilled()) ==> sent == Some(old(Request())) && error == "" && loading
      ensures isLogin == old(isLogin) && email == old(email) && password == old(password)
      ensures name == old(name) && role == old(role) && groupCode == old(groupCode)
    {
      if loading || !RequiredFilled() {
        return None;
      }
      error := "";
      loading := true;
      sent := Some(Request());
    }

    /** The continuation of `handleSubmit` once the call settles: the user is
        handed to `onLogin`, or the error is shown; loading ends either way. */
    method FinishSubmit(outcome: Result<User>) returns (loggedIn: Option<User>)
      modifies this
      ensures !loading
      ensures outcome.Ok? ==> loggedIn == Some(outcome.value) && error == old(error)
      ensures outcome.Err? ==> loggedIn.None? && error == ErrorText(outcome.message)
      ensures isLogin == old(isLogin) && email == old(email) && password == old(password)
      ensures name == old(name) && role == old(role) && groupCode == old(groupCode)
    {
      if outcome.Ok? {
        loggedIn := Some(outcome.value);
      } else {
        loggedIn := None;
        error := ErrorText(outcome.message);
      }
      loading := false;
    }

    /** `handleSubmit`, given the outcome of the call it makes. */
    method HandleSubmit(outcome: Result<User>) returns (sent: Option<AuthRequest>, loggedIn: Option<User>)
      modifies this
      ensures sent.Some? <==> !old(loading) && old(RequiredFilled())
      ensures sent.Some? ==> sent.value == old(Request()) && !loading
      ensures sent.Some? && outcome.Ok? ==> loggedIn == Some(outcome.value) && error == ""
      ensures sent.Some? && outcome.Err? ==> loggedIn.None? && error == ErrorText(outcome.message)
      ensures sent.None? ==> loggedIn.None? && error == old(error) && loading == old(loading)
      ensures isLogin == old(isLogin) && email == old(email) && password == old(password)
      ensures name == old(name) && role == old(role) && groupCode == old(groupCode)
    {
      sent := BeginSubmit();
      loggedIn := None;
      if sent.Some? {
        loggedIn := FinishSubmit(outcome);
      }
    }
  }
}
