/**
  The navigation bar (`Navbar`): the theme toggle, the highlight of the
  active link, the links offered to a signed-out visitor, sign-out, and the
  flag that opens the menu.
*/
module Navbar {
  import opened Wrappers
  import opened AppState

  /** `theme === 'light' ? 'dark' : 'light'`. */
  function Toggle(theme: string): (t: string)
    ensures t == "dark" <==> theme == "light"
    ensures t == "light" <==> theme != "light"
  {
    if theme == "light" then "dark" else "light"
  }

  /** From either of the two themes, toggling twice gives the theme back. */
  lemma ToggleInvolution(theme: string)
    requires theme == "light" || theme == "dark"
    ensures Toggle(Toggle(theme)) == theme
  {
  }

  /** Any other stored value is treated as dark: one toggle gives "light". */
  lemma ToggleNormalises(theme: string)
    requires theme != "light" && theme != "dark"
    ensures Toggle(theme) == "light" && Toggle(Toggle(theme)) == "dark"
  {
  }

  /** The theme a toggle writes to storage is the one the application reads back when it next mounts. */
  lemma ToggledThemeSurvivesReload(storage: map<string, string>, theme: string)
    ensures InitialTheme(StoredTheme(storage[ThemeKey := Toggle(theme)])) == Toggle(theme)
  {
  }

  const ActiveClassName: string := "text-blue-500"

  /** `isActive(path)`: the highlight class exactly when `path` is the current path, otherwise no class. */
  function IsActive(pathname: string, path: string): (c: string)
    ensures c == ActiveClassName <==> pathname == path
    ensures c == "" <==> pathname != path
  {
    if pathname == path then ActiveClassName else ""
  }

  /** At most one of the two bar links is highlighted. */
  lemma OneActiveLink(pathname: string)
    ensures !(IsActive(pathname, "/") == ActiveClassName && IsActive(pathname, "/dashboard") == ActiveClassName)
  {
  }

  /** What the right side of the bar offers: the profile button when a token is set, otherwise the sign-in links. */
  datatype Corner = Profile(avatar: string) | SignInLinks

  function CornerFor(auth: Auth): (c: Corner)
    ensures c.SignInLinks? <==> !HasToken(auth)
    ensures c.Profile? ==> c.avatar == auth.profileImg
  {
    if HasToken(auth) then Profile(auth.profileImg) else SignInLinks
  }

  /**
    The paths the menu links to: nothing while it is closed; the two page
    links, then the login and sign-up links only when no token is set.
  */
  function MenuLinks(auth: Auth, menuOpen: bool): (links: seq<string>)
    ensures !menuOpen ==> links == []
    ensures menuOpen ==> |links| >= 2 && links[..2] == ["/", "/dashboard"]
    ensures "/login" in links <==> menuOpen && !HasToken(auth)
    ensures "/signup" in links <==> menuOpen && !HasToken(auth)
  {
    if !menuOpen then []
    else if HasToken(auth) then ["/", "/dashboard"]
    else ["/", "/dashboard", "/login", "/signup"]
  }

  /** The sign-out button is on screen only when a token is set and the menu is open. */
  predicate SignOutShown(auth: Auth, menuOpen: bool) {
    HasToken(auth) && menuOpen
  }

  /** After sign-out the bar offers the sign-in links again and sign-out is no longer shown. */
  lemma SignedOutOffersSignIn(menuOpen: bool)
    ensures CornerFor(SignedOut) == SignInLinks
    ensures !SignOutShown(SignedOut, menuOpen)
    ensures menuOpen ==> "/login" in MenuLinks(SignedOut, menuOpen)
  {
    assert MenuLinks(SignedOut, menuOpen) == if menuOpen then ["/", "/dashboard", "/login", "/signup"] else [];
  }

  class NavbarView {
    var menuOpen: bool

    constructor()
      ensures !menuOpen
    {
      menuOpen := false;
    }

    /**
      `changeTheme`: the theme state, the body's `data-theme` attribute and the
      stored theme all become the toggled theme; nothing else changes.
    */
    method ChangeTheme(app: App)
      modifies app
      ensures app.theme == Toggle(old(app.theme))
      ensures app.bodyTheme == Some(app.theme)
      ensures app.storage == old(app.storage)[ThemeKey := app.theme]
      ensures app.auth == old(app.auth) && app.pathname == old(app.pathname)
    {
      var newTheme := if app.theme == "light" then "dark" else "light";
      app.theme := newTheme;
      app.bodyTheme := Some(newTheme);
      app.storage := app.storage[ThemeKey := newTheme];
    }

    /** `handleLogout`: the user stub is reset to the one the application starts with; nothing else changes. */
    method Logout(app: App)
      modifies app
      ensures app.auth == SignedOut
      ensures app.theme == old(app.theme) && app.bodyTheme == old(app.bodyTheme)
      ensures app.storage == old(app.storage) && app.pathname == old(app.pathname)
    {
      app.auth := Auth(None, DefaultAvatar, false);
    }

    /** Either menu button: the flag flips. */
    method ToggleMenu()
      modifies this
      ensures menuOpen == !old(menuOpen)
    {
      menuOpen := !menuOpen;
    }
  }
}
