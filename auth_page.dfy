/** The sign-in / sign-up page (app/auth/page.tsx): two form validators, the
    translation of sign-in failures into messages, and the form state the
    handlers update. The authentication provider is a parameter: its answer
    to the call a handler makes is passed in. */
module AuthPage {
  import opened Common

  const MinPasswordLength: nat := 6

  const FillAllFields: string := "Please fill in all fields"
  const PasswordTooShort: string := "Password must be at least 6 characters"
  const PasswordsDiffer: string := "Passwords do not match"
  const SignUpDone: string := "Check your email to confirm your account"
  const SignUpCrashed: string := "An unexpected error occurred"
  const BadCredentials: string := "Error al iniciar sesión. Por favor verifica tus credenciales."
  const UnknownError: string := "Error desconocido"
  const ConnectionError: string :=
    "Error de conexión. Por favor verifica tu conexión a internet y las variables de entorno de Supabase."
  const DashboardPath: string := "/dashboard"

  /** The sign-up checks, in order; None when the form may be submitted. */
  function SignUpCheck(email: string, password: string, confirmPassword: string): (r: Option<string>)
    ensures r == Some(FillAllFields) <==> email == "" || password == ""
    ensures r == Some(PasswordTooShort) <==>
      email != "" && password != "" && |password| < MinPasswordLength
    ensures r == Some(PasswordsDiffer) <==>
      email != "" && |password| >= MinPasswordLength && password != confirmPassword
    ensures r.None? <==>
      email != "" && |password| >= MinPasswordLength && password == confirmPassword
  {
    if email == "" || password == "" then Some(FillAllFields)
    else if |password| < MinPasswordLength then Some(PasswordTooShort)
    else if password != confirmPassword then Some(PasswordsDiffer)
    else None
  }

  /** The sign-in check: emptiness only. */
  function SignInCheck(email: string, password: string): (r: Option<string>)
    ensures r.None? <==> email != "" && password != ""
    ensures r.Some? ==> r.value == FillAllFields
  {
    if email == "" || password == "" then Some(FillAllFields) else None
  }

  /** Every form sign-up accepts, sign-in accepts too, and sign-in also
      accepts short passwords and ignores the confirmation field. */
  lemma SignInIsLaxer(email: string, password: string, confirmPassword: string)
    ensures SignUpCheck(email, password, confirmPassword).None? ==> SignInCheck(email, password).None?
    ensures email != "" && password != "" ==> SignInCheck(email, password).None?
    ensures SignUpCheck("a", "12345", "12345") == Some(PasswordTooShort) && SignInCheck("a", "12345").None?
  {
  }

  /** What the provider answered to `signUp`: success, an error object with a
      message, or a thrown exception. */
  datatype SignUpAnswer = SignedUp | SignUpRejected(message: string) | SignUpThrew

  /** What the provider answered to `signInWithPassword`. A thrown value is
      `InstanceOfError(m)` when it is an `Error` with message `m`. */
  datatype Thrown = InstanceOfError(message: string) | OtherValue
  datatype SignInAnswer = SignedIn | SignInRejected(message: string) | SignInThrew(thrown: Thrown)

  /** The message shown after a failed sign-in. */
  function SignInFailureMessage(answer: SignInAnswer): (m: string)
    requires !answer.SignedIn?
    ensures answer.SignInRejected? ==> m == if answer.message != "" then answer.message else BadCredentials
    ensures answer.SignInThrew? ==>
      var detail := if answer.thrown.InstanceOfError? then answer.thrown.message else UnknownError;
      if Contains(detail, "fetch") || Contains(detail, "network") then m == ConnectionError
      else m == "Error inesperado: " + detail
  {
    match answer
    case SignInRejected(message) => if message != "" then message else BadCredentials
    case SignInThrew(thrown) =>
      var detail := if thrown.InstanceOfError? then thrown.message else UnknownError;
      if Contains(detail, "fetch") || Contains(detail, "network") then ConnectionError
      else "Error inesperado: " + detail
  }

  /** A thrown `TypeError: Failed to fetch` (the browser's network failure)
      is reported as a connection problem; a thrown non-`Error` is not. */
  lemma NetworkFailuresReadAsConnectionErrors()
    ensures SignInFailureMessage(SignInThrew(InstanceOfError("Failed to fetch"))) == ConnectionError
    ensures SignInFailureMessage(SignInThrew(OtherValue)) == "Error inesperado: " + UnknownError
  {
    assert OccursAt("Failed to fetch", "fetch", 10);
    var u := UnknownError;
    forall i | 0 <= i <= |u| - |"fetch"| ensures !OccursAt(u, "fetch", i) {
      assert u[i..i + |"fetch"|][0] == u[i] != 'f';
    }
    forall i | 0 <= i <= |u| - |"network"| ensures !OccursAt(u, "network", i) {
      assert u[i..i + |"network"|][0] == u[i] != 'n';
    }
  }

  datatype Tab = SignInTab | SignUpTab

  /** The page's form state. */
  class AuthForm {
    var activeTab: Tab
    var email: string
    var password: string
    var confirmPassword: string
    var loading: bool
    var error: Option<string>
    var success: Option<string>

    constructor()
      ensures activeTab == SignInTab && email == "" && password == "" && confirmPassword == ""
      ensures !loading && error.None? && success.None?
    {
      activeTab, email, password, confirmPassword := SignInTab, "", "", "";
      loading, error, success := false, None, None;
    }

    /** The tab buttons above the form clear both messages; the links below
        it only switch the tab. */
    method SelectTab(tab: Tab, clearMessages: bool)
      modifies this
      ensures activeTab == tab
      ensures error == (if clearMessages then None else old(error))
      ensures success == (if clearMessages then None else old(success))
      ensures email == old(email) && password == old(password) && confirmPassword == old(confirmPassword)
      ensures loading == old(loading)
    {
      activeTab := tab;
      if clearMessages {
        error := None;
        success := None;
      }
    }

    /** Submitting the sign-up form; `answer` is what the provider says if it
        is called. A rejected form never reaches the provider and leaves the
        fields and the loading flag as they were. */
    method HandleSignUp(answer: SignUpAnswer)
      modifies this
      ensures activeTab == old(activeTab)
      ensures var check := SignUpCheck(old(email), old(password), old(confirmPassword));
        if check.Some? then
          && error == check && success.None? && loading == old(loading)
          && email == old(email) && password == old(password) && confirmPassword == old(confirmPassword)
        else
          && !loading
          && match answer
             case SignedUp =>
               && error.None? && success == Some(SignUpDone)
               && email == "" && password == "" && confirmPassword == ""
             case SignUpRejected(message) =>
               && error == Some(message) && success.None?
               && email == old(email) && password == old(password) && confirmPassword == old(confirmPassword)
             case SignUpThrew =>
               && error == Some(SignUpCrashed) && success.None?
               && email == old(email) && password == old(password) && confirmPassword == old(confirmPassword)
    {
      error := None;
      success := None;
      var check := SignUpCheck(email, password, confirmPassword);
      if check.Some? {
        error := check;
        return;
      }
      loading := true;
      match answer {
        case SignedUp =>
          success := Some(SignUpDone);
          email := "";
          password := "";
          confirmPassword := "";
        case SignUpRejected(message) =>
          error := Some(message);
        case SignUpThrew =>
          error := Some(SignUpCrashed);
      }
      loading := false;
    }

    /** Submitting the sign-in form; `redirect` is the route navigated to. */
    method HandleSignIn(answer: SignInAnswer) returns (redirect: Option<string>)
      modifies this
      ensures activeTab == old(activeTab) && success.None?
      ensures email == old(email) && password == old(password) && confirmPassword == old(confirmPassword)
      ensures var check := SignInCheck(old(email), old(password));
        if check.Some? then
          error == check && loading == old(loading) && redirect.None?
        else
          && !loading
          && (redirect.Some? <==> answer.SignedIn?)
          && (answer.SignedIn? ==> redirect == Some(DashboardPath) && error.None?)
          && (!answer.SignedIn? ==> error == Some(SignInFailureMessage(answer)))
    {
      error := None;
      success := None;
      redirect := None;
      var check := SignInCheck(email, password);
      if check.Some? {
        error := check;
        return;
      }
      loading := true;
      if answer.SignedIn? {
        redirect := Some(DashboardPath);
      } else {
        error := Some(SignInFailureMessage(answer));
      }
      loading := false;
    }
  }
}
