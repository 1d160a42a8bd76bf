/**
  The sign-in page (`Login`): a form with an email and a password, a
  `loading` flag and an error text. Only the demo credentials sign in.

  A submission is split at its one-second timer: `Begin` is what happens on
  submit, and `Complete` is the timer's callback, run with the credentials
  the submitting render saw. The timer is modelled as firing atomically.
*/
module Login {
  import opened Wrappers
  import opened AppState

  const DemoEmail: string := "demo@example.com"
  const DemoPassword: string := "password"
  const DemoToken: string := "demo-token-12345"
  const DemoAvatar: string := "https://api.dicebear.com/7.x/" + "avataaars/svg?seed=demo"
  const InvalidCredentialsText: string :=
    "Invalid credentials. " + "Use demo@example.com / password for demo"

  /** The user stub set by a successful sign-in. */
  const DemoAuth: Auth := Auth(Some(DemoToken), DemoAvatar, true)

  /** The stub a sign-in with these credentials sets, if any: only the exact demo pair is accepted. */
  function CheckCredentials(email: string, password: string): (r: Option<Auth>)
    ensures r.Some? <==> email == DemoEmail && password == DemoPassword
    ensures r.Some? ==> r.value == DemoAuth
  {
    if email == DemoEmail && password == DemoPassword then Some(DemoAuth) else None
  }

  /** The comparison is exact: a change of case or surrounding whitespace is rejected. */
  lemma VariantsRejected()
    ensures CheckCredentials("Demo@example.com", DemoPassword).None?
    ensures CheckCredentials(DemoEmail + " ", DemoPassword).None?
    ensures CheckCredentials(DemoEmail, "Password").None?
  {
    assert ("Demo@example.com")[0] != DemoEmail[0];
    assert |DemoEmail + " "| != |DemoEmail|;
    assert ("Password")[0] != DemoPassword[0];
  }

  /** A successful sign-in leaves a truthy token, so the navigation bar shows the profile button. */
  lemma DemoAuthSignsIn()
    ensures HasToken(DemoAuth)
    ensures DemoAuth != SignedOut
  {
  }

  class LoginForm {
    var email: string
    var password: string
    var loading: bool
    var error: string

    constructor()
      ensures email == "" && password == "" && !loading && error == ""
    {
      email := "";
      password := "";
      loading := false;
      error := "";
    }

    method SetEmail(s: string)
      modifies this
      ensures email == s && password == old(password) && loading == old(loading) && error == old(error)
    {
      email := s;
    }

    method SetPassword(s: string)
      modifies this
      ensures password == s && email == old(email) && loading == old(loading) && error == old(error)
    {
      password := s;
    }

    /** On submit: `loading` is set and the error cleared, before any check; the credentials are captured. */
    method Begin() returns (captured: (string, string))
      modifies this
      ensures captured == (old(email), old(password))
      ensures loading && error == ""
      ensures email == old(email) && password == old(password)
    {
      loading := true;
      error := "";
      captured := (email, password);
    }

    /**
      The timer's callback. The demo credentials set the demo user stub and
      navigate to the dashboard; any others leave the stub and the location
      alone and set the invalid-credentials text. `loading` is cleared either way.
    */
    method Complete(app: App, captured: (string, string))
      modifies this, app
      ensures CheckCredentials(captured.0, captured.1).Some? ==>
        app.auth == DemoAuth && app.pathname == "/dashboard" && error == old(error)
      ensures CheckCredentials(captured.0, captured.1).None? ==>
        app.auth == old(app.auth) && app.pathname == old(app.pathname) && error == InvalidCredentialsText
      ensures !loading && email == old(email) && password == old(password)
      ensures app.theme == old(app.theme) && app.bodyTheme == old(app.bodyTheme) && app.storage == old(app.storage)
    {
      if captured.0 == "demo@example.com" && captured.1 == "password" {
        app.auth := Auth(Some("demo-token-12345"), DemoAvatar, true);
        app.pathname := "/dashboard";
      } else {
        error := InvalidCredentialsText;
      }
      loading := false;
    }

    /** A whole submission, with nothing typed while the timer runs. */
    method Submit(app: App)
      modifies this, app
      ensures CheckCredentials(old(email), old(password)).Some? ==>
        app.auth == DemoAuth && app.pathname == "/dashboard" && error == ""
      ensures CheckCredentials(old(email), old(password)).None? ==>
        app.auth == old(app.auth) && app.pathname == old(app.pathname) && error == InvalidCredentialsText
      ensures !loading && email == old(email) && password == old(password)
      ensures app.theme == old(app.theme) && app.bodyTheme == old(app.bodyTheme) && app.storage == old(app.storage)
    {
      var captured := Begin();
      Complete(app, captured);
    }
  }
}
