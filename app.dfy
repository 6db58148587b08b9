/** The application shell (src/App.jsx): the session token, its persistence in
    browser storage, and the route guard that picks a page for a path. */
module App {
  import opened Common

  /** The storage key under which the token is persisted. */
  const TokenKey := "authToken"

  /** The initial token: the stored one, or '' when none is stored. */
  function InitialToken(storage: map<string, string>): (t: string)
    ensures TokenKey in storage ==> t == storage[TokenKey]
    ensures TokenKey !in storage ==> t == ""
  {
    if TokenKey in storage then storage[TokenKey] else ""
  }

  /** Storage after the persistence effect has run for `token`: a non-empty
      token is stored under the key, an empty one removes the key, and no other
      key changes. */
  function Persist(storage: map<string, string>, token: string): (s: map<string, string>)
    ensures TokenKey in s <==> token != ""
    ensures TokenKey in s ==> s[TokenKey] == token
    ensures forall k :: k != TokenKey ==> (k in s <==> k in storage)
    ensures forall k :: k != TokenKey && k in s ==> s[k] == storage[k]
  {
    if token != "" then storage[TokenKey := token] else storage - {TokenKey}
  }

  /** A token that has been persisted is the one a later start reads back. */
  lemma PersistRestores(storage: map<string, string>, token: string)
    ensures InitialToken(Persist(storage, token)) == token
  {
  }

  /** The pages the router can render. */
  datatype Page = LoginPage | SignupPage | AnalysisPage | MockQuestionsPage

  /** What a path shows: a page, or a redirect to another path. */
  datatype Screen = Show(page: Page) | Redirect(to: string)

  /** The route table: the login and signup pages only without a token, the
      analysis and mock-question pages only with one, and every other path
      redirected to the home page or the login page. */
  function Route(path: string, token: string): (r: Screen)
    ensures r.Show? && (r.page == LoginPage || r.page == SignupPage) ==> token == ""
    ensures r.Show? && (r.page == AnalysisPage || r.page == MockQuestionsPage) ==> token != ""
    ensures r.Show? ==> path in {"/login", "/signup", "/", "/mock-questions"}
    ensures r.Redirect? ==> r.to == (if token != "" then "/" else "/login")
    ensures path in {"/login", "/signup"} ==> (r.Show? <==> token == "")
    ensures path in {"/", "/mock-questions"} ==> (r.Show? <==> token != "")
    ensures path == "/login" && token == "" ==> r == Show(LoginPage)
    ensures path == "/signup" && token == "" ==> r == Show(SignupPage)
    ensures path == "/" && token != "" ==> r == Show(AnalysisPage)
    ensures path == "/mock-questions" && token != "" ==> r == Show(MockQuestionsPage)
  {
    if path == "/login" then (if token == "" then Show(LoginPage) else Redirect("/"))
    else if path == "/signup" then (if token == "" then Show(SignupPage) else Redirect("/"))
    else if path == "/" then (if token != "" then Show(AnalysisPage) else Redirect("/login"))
    else if path == "/mock-questions" then (if token != "" then Show(MockQuestionsPage) else Redirect("/login"))
    else Redirect(if token != "" then "/" else "/login")
  }

  /** Following one redirect always lands on a page: the guard never loops. */
  lemma RedirectLandsOnPage(path: string, token: string)
    ensures Route(path, token).Redirect? ==> Route(Route(path, token).to, token).Show?
  {
  }

  /** The token state of the application component and the storage it keeps in
      step with it. */
  class AppState {
    var token: string
    var storage: map<string, string>

    /** Mounting reads the stored token and then runs the persistence effect. */
    constructor (stored: map<string, string>)
      ensures token == InitialToken(stored)
      ensures storage == Persist(stored, token)
    {
      token := InitialToken(stored);
      storage := stored;
      new;
      PersistToken();
    }

    /** The effect that runs whenever the token changes. */
    method PersistToken()
      modifies this`storage
      ensures storage == Persist(old(storage), token)
    {
      if token != "" {
        storage := storage[TokenKey := token];
      } else {
        storage := storage - {TokenKey};
      }
    }

    /** `handleLogin`: adopt the token a login or signup page hands over. */
    method HandleLogin(newToken: string)
      modifies this
      ensures token == newToken
      ensures storage == Persist(old(storage), newToken)
    {
      token := newToken;
      PersistToken();
    }

    /** `handleLogout`: drop the token, which removes it from storage. */
    method HandleLogout()
      modifies this
      ensures token == ""
      ensures storage == Persist(old(storage), "")
      ensures TokenKey !in storage
    {
      token := "";
      PersistToken();
    }
  }
}
