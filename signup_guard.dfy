/**
 * The client-side guard of the user registration page (`load` of
 * `usuarios/cadastro`): in the browser, a token in either storage scope is
 * required. The guard only reads the storages it is given.
 */
module SignupGuard {
  import opened Wrappers
  import opened Js
  import opened Storage
  import opened Kit

  const TokenKey := "authToken"

  /** `load`: outside the browser it always passes; in the browser it needs a truthy token in either scope. */
  function Load(browser: bool, local: map<string, string>, session: map<string, string>): (r: Outcome)
    ensures r == Data || r == Redirect(Found, LoginPath)
    ensures !browser ==> r == Data
    ensures browser ==> (r == Redirect(Found, LoginPath) <==> !Truthy(Get(local, TokenKey)) && !Truthy(Get(session, TokenKey)))
  {
    if browser && !Truthy(Or(Get(local, TokenKey), Get(session, TokenKey))) then Redirect(Found, LoginPath)
    else Data
  }
}
