/**
 * How the components meet: the keys and the cookie one of them writes and
 * another reads.
 */
module Wiring {
  import opened Wrappers
  import opened Js
  import opened Storage
  import opened Kit
  import Auth
  import Theme
  import SignupGuard
  import LayoutGuard
  import LoginActions

  /**
   * The theme store looks for key `auth`, while the session store writes only
   * `authToken` and `user`: whatever the session store does, the theme's API
   * branch is out of reach unless something else put a truthy `auth` entry there.
   */
  lemma SessionStoreNeverEnablesThemeApi(browser: bool, c: Auth.Codec, local: map<string, string>,
                                         session: map<string, string>, ops: seq<Auth.Op>, prefersDark: bool,
                                         parseAuth: string -> Option<Theme.AuthBlob>,
                                         fetch: string -> Option<Theme.Preferences>, a: Theme.Appearance)
    requires !Truthy(Get(local, Theme.AuthKey))
    ensures var w := Auth.Run(browser, c, Auth.Start(browser, local, session), ops);
            Theme.InitAppearance(true, w.local, prefersDark, parseAuth, fetch, a)
              == Theme.FallbackAppearance(w.local, prefersDark, a)
  {
    var w := Auth.Run(browser, c, Auth.Start(browser, local, session), ops);
    Auth.RunKeepsOtherKeys(browser, c, Auth.Start(browser, local, session), ops, Theme.AuthKey);
    Theme.NoAuthEntryFallsBack(w.local, prefersDark, parseAuth, fetch, a);
  }

  /** After a login in the browser with a non-empty token, the registration page lets the user in. */
  lemma LoginOpensSignupPage(c: Auth.Codec, w: Auth.Snapshot, user: Auth.User, token: string, rememberMe: bool)
    requires token != ""
    ensures var after := Auth.LoginStep(true, c, w, user, token, rememberMe);
            SignupGuard.Load(true, after.local, after.session) == Data
  {
  }

  /** After a logout in the browser, the registration page sends the user to the login page. */
  lemma LogoutClosesSignupPage(w: Auth.Snapshot)
    ensures var after := Auth.LogoutStep(true, w);
            SignupGuard.Load(true, after.local, after.session) == Redirect(Found, LoginPath)
  {
  }

  /** The cookies a later request carries: each cookie's value, by name. */
  function CookieValues(jar: map<string, LoginActions.Cookie>): (sent: map<string, string>)
    ensures sent.Keys == jar.Keys
    ensures forall name :: name in jar ==> sent[name] == jar[name].value
  {
    map name | name in jar :: jar[name].value
  }

  /** The cookie the login action sets opens every route to the layout guard. */
  lemma LoginCookieOpensLayout(jar: map<string, LoginActions.Cookie>, token: string, maxAge: nat,
                               pathname: string, search: string)
    requires token != ""
    ensures var after := jar[LoginActions.CookieName := LoginActions.Cookie(token, LoginActions.CookiePath, maxAge)];
            LayoutGuard.Load(LayoutGuard.Request(pathname, search, CookieValues(after))) == Data
  {
  }

  /** Once the logout action has deleted the cookie, only the public routes stay open. */
  lemma LogoutCookieClosesLayout(jar: map<string, LoginActions.Cookie>, pathname: string, search: string)
    ensures var after := jar - {LoginActions.CookieName};
            (LayoutGuard.Load(LayoutGuard.Request(pathname, search, CookieValues(after))) == Data
             <==> LoginPath <= pathname)
  {
  }
}
