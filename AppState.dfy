/**
  The application-wide state the pages share (`App`): the colour theme, the
  signed-in user stub, and the parts of the browser the pages write to (the
  `data-theme` attribute of the document body, the `localStorage` entries and
  the current location's path).
*/
module AppState {
  import opened Wrappers

  /** The user stub (`userAuth`); `accessToken` is `None` for `null`. */
  datatype Auth = Auth(accessToken: Option<string>, profileImg: string, newNotification: bool)

  const DefaultAvatar: string := "https://api.dicebear.com/7.x/" + "avataaars/svg?seed=default"

  /** The stub the application starts with: no token, the default avatar, no notification. */
  const SignedOut: Auth := Auth(None, DefaultAvatar, false)

  /** The token is truthy in JavaScript's sense: present and not the empty string. */
  predicate HasToken(a: Auth) {
    a.accessToken.Some? && a.accessToken.value != ""
  }

  /** The `localStorage` key the theme is kept under. */
  const ThemeKey: string := "theme"

  /** `localStorage.getItem('theme')`: `None` for `null`. */
  function StoredTheme(storage: map<string, string>): (t: Option<string>)
    ensures t.Some? <==> ThemeKey in storage
    ensures t.Some? ==> t.value == storage[ThemeKey]
  {
    if ThemeKey in storage then Some(storage[ThemeKey]) else None
  }

  /** `stored || 'light'`: a non-empty stored theme is used, anything else falls back to "light". */
  function InitialTheme(stored: Option<string>): (theme: string)
    ensures stored.Some? && stored.value != "" ==> theme == stored.value
    ensures stored.None? || stored.value == "" ==> theme == "light"
    ensures theme != ""
  {
    if stored.Some? && stored.value != "" then stored.value else "light"
  }

  class App {
    var theme: string
    var auth: Auth
    /** The `data-theme` attribute of the document body; `None` until a page sets it. */
    var bodyTheme: Option<string>
    var storage: map<string, string>
    var pathname: string

    /**
      The application as it mounts over the browser's `storage` at `pathname`:
      the theme is read back from storage and nobody is signed in.
    */
    constructor(storage: map<string, string>, pathname: string)
      ensures this.storage == storage && this.pathname == pathname
      ensures theme == InitialTheme(StoredTheme(storage))
      ensures auth == SignedOut && bodyTheme.None?
    {
      this.storage := storage;
      this.pathname := pathname;
      theme := InitialTheme(StoredTheme(storage));
      auth := SignedOut;
      bodyTheme := None;
    }
  }
}
