/** The login form of the tourist app (tourist-app/src/pages/LoginPage.tsx):
    the checks before the request, the form it posts, and how a failure
    becomes the message shown. The POST is an input saying how it ended. */
module LoginPage {
  import opened Wrappers
  import opened AuthContext

  const MissingFieldsText := "Email and password are required."
  const NoContextText := "Auth context is not available."
  const RejectedText := "Login failed. Please check your credentials."
  const UnexpectedText := "Login failed. An unexpected error occurred."

  /** The form body of `/auth/login`: the email goes out as `username`. */
  datatype LoginForm = LoginForm(username: string, password: string)

  /** How the POST failed: the server answered (with an optional string
      `detail`), or something else went wrong. */
  datatype LoginFailure = Rejected(detail: Option<string>) | Unexpected

  /** The message a failed POST leaves: the server's non-empty detail, else
      the credentials hint; without an answer, the generic text. */
  function FailureMessage(failure: LoginFailure): (r: string)
    ensures failure.Rejected? && failure.detail.Some? && failure.detail.value != "" ==> r == failure.detail.value
    ensures failure.Rejected? && (failure.detail.None? || failure.detail.value == "") ==> r == RejectedText
    ensures failure.Unexpected? ==> r == UnexpectedText
    ensures r != ""
  {
    match failure
    case Rejected(detail) => if detail.Some? && detail.value != "" then detail.value else RejectedText
    case Unexpected => UnexpectedText
  }

  class LoginView {
    var email: string
    var password: string
    var loading: bool
    var error: Option<string>
    /** The authentication context, absent outside its provider. */
    const auth: AuthProvider?

    constructor (auth: AuthProvider?)
      ensures email == "" && password == "" && !loading && error == None && this.auth == auth
    {
      email := "";
      password := "";
      loading := false;
      error := None;
      this.auth := auth;
    }

    method TypeEmail(value: string)
      modifies this
      ensures email == value && password == old(password) && error == old(error) && loading == old(loading)
    {
      email := value;
    }

    method TypePassword(value: string)
      modifies this
      ensures password == value && email == old(email) && error == old(error) && loading == old(loading)
    {
      password := value;
    }

    /** `handleSubmit`, given how the POST would end (the access token on
        success). An empty field, then a missing context, stops before any
        request; a success logs in with the token and navigates to '/'; a
        failure shows its message. Loading is off afterwards in every case. */
    method HandleSubmit(outcome: Result<string, LoginFailure>) returns (posted: Option<LoginForm>, navigateTo: Option<string>)
      modifies this, auth
      ensures !loading && email == old(email) && password == old(password)
      ensures old(email) == "" || old(password) == "" ==>
                && error == Some(MissingFieldsText) && posted == None && navigateTo == None
      ensures old(email) != "" && old(password) != "" && auth == null ==>
                && error == Some(NoContextText) && posted == None && navigateTo == None
      ensures old(email) != "" && old(password) != "" && auth != null ==>
                posted == Some(LoginForm(old(email), old(password)))
      ensures posted.Some? && outcome.Ok? ==>
                && error == None && navigateTo == Some("/")
                && auth.token == Some(outcome.value) && auth.storedToken == Some(outcome.value)
      ensures posted.Some? && outcome.Err? ==>
                && error == Some(FailureMessage(outcome.error)) && navigateTo == None
                && auth.token == old(auth.token) && auth.storedToken == old(auth.storedToken)
      ensures posted.Some? ==> auth.userInfo == old(auth.userInfo) && auth.isLoading == old(auth.isLoading)
      ensures auth != null && posted.None? ==>
                && auth.token == old(auth.token) && auth.storedToken == old(auth.storedToken)
                && auth.userInfo == old(auth.userInfo) && auth.isLoading == old(auth.isLoading)
    {
      error := None;
      loading := true;
      navigateTo := None;
      if email == "" || password == "" {
        error := Some(MissingFieldsText);
        loading := false;
        return None, None;
      }
      if auth == null {
        error := Some(NoContextText);
        loading := false;
        return None, None;
      }
      posted := Some(LoginForm(email, password));
      match outcome {
        case Ok(accessToken) =>
          auth.Login(accessToken);
          navigateTo := Some("/");
        case Err(failure) =>
          error := Some(FailureMessage(failure));
      }
      loading := false;
    }
  }

  /** A successful sign-in leaves the provider authenticated whenever the
      server hands out a non-empty token. */
  method SignInAuthenticates(view: LoginView, accessToken: string)
    requires view.auth != null && view.email != "" && view.password != "" && accessToken != ""
    modifies view, view.auth
    ensures view.auth.IsAuthenticated() && view.error == None
  {
    var posted, navigateTo := view.HandleSubmit(Ok(accessToken));
  }
}
