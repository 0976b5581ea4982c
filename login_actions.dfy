/**
 * The form actions of the login page: `login` stores the submitted token in
 * the `authToken` cookie and `logout` deletes it. The cookie jar is changed
 * in place; the security flags of the cookie are not modelled.
 */
module LoginActions {
  import opened Wrappers
  import opened Js
  import opened Storage
  import opened Kit

  const CookieName := "authToken"
  const CookiePath := "/"
  const MissingToken := "Token não fornecido"
  const Day := 60 * 60 * 24

  datatype Cookie = Cookie(value: string, path: string, maxAge: nat)

  /** The `rememberMe` form field is strictly equal to the string `true`. */
  function RememberMe(form: map<string, string>): (r: bool)
    ensures r <==> Get(form, "rememberMe") == Some("true")
  {
    "rememberMe" in form && form["rememberMe"] == "true"
  }

  /** The cookie lifetime in seconds: 30 days when remembered, one day otherwise. */
  function MaxAge(rememberMe: bool): (r: nat)
    ensures rememberMe ==> r == 2592000
    ensures !rememberMe ==> r == 86400
    ensures rememberMe ==> r > MaxAge(false)
  {
    if rememberMe then Day * 30 else Day
  }

  /** The cookies of the response being built, by name. */
  class CookieJar {
    var cookies: map<string, Cookie>

    constructor (cookies: map<string, Cookie>)
      ensures this.cookies == cookies
    {
      this.cookies := cookies;
    }

    /** `cookies.set(name, value, { path, maxAge })`. */
    method Set(name: string, c: Cookie)
      modifies this
      ensures cookies == old(cookies)[name := c]
    {
      cookies := cookies[name := c];
    }

    /** `cookies.delete(name, { path })`. */
    method Delete(name: string)
      modifies this
      ensures cookies == old(cookies) - {name}
    {
      cookies := cookies - {name};
    }
  }

  /** `actions.login`: 400 without a truthy token; otherwise the cookie is set and the user sent to `/`. */
  method Login(form: map<string, string>, jar: CookieJar) returns (r: Outcome)
    modifies jar
    ensures !Truthy(Get(form, "token")) ==> r == Failure(400, MissingToken) && jar.cookies == old(jar.cookies)
    ensures Truthy(Get(form, "token")) ==>
      && r == Redirect(Found, "/")
      && jar.cookies == old(jar.cookies)[CookieName := Cookie(form["token"], CookiePath, MaxAge(RememberMe(form)))]
  {
    var token := Get(form, "token");
    var rememberMe := RememberMe(form);
    if !Truthy(token) {
      return Failure(400, MissingToken);
    }
    jar.Set(CookieName, Cookie(token.value, CookiePath, MaxAge(rememberMe)));
    r := Redirect(Found, "/");
  }

  /** `actions.logout`: the cookie is gone, whatever was there, and the user is sent to the login page. */
  method Logout(jar: CookieJar) returns (r: Outcome)
    modifies jar
    ensures jar.cookies == old(jar.cookies) - {CookieName}
    ensures CookieName !in jar.cookies
    ensures r == Redirect(Found, LoginPath)
  {
    jar.Delete(CookieName);
    r := Redirect(Found, LoginPath);
  }
}
