/**
 * The top-level page switch of the client: one `page` state cell (login,
 * signup or chat), initialised from the token in local storage, and the
 * handlers the three views are given.
 */
module App {

  datatype Page = Login | Signup | Chat

  /** The callbacks the views call. Each handler is an unconditional state
      update, so the page after an event depends on the event alone. */
  datatype Event =
    | LoginSwitch       // Login's "create an account" link
    | LoginAuthSuccess  // Login's successful sign-in
    | SignupSwitch      // Signup's "back to login" link
    | SignupAuthSuccess // Signup's successful registration
    | Logout            // Chat's logout button

  /** Local storage: string keys to string values. */
  type Storage = map<string, string>

  /** The keys a logout removes. */
  const SessionKeys: set<string> := {"token", "userId", "userName"}

  /** `localStorage.getItem('token')` is truthy: present and non-empty. */
  predicate HasToken(store: Storage) {
    "token" in store && store["token"] != ""
  }

  /** The page the app opens on. */
  function InitialPage(store: Storage): (p: Page)
    ensures p == Chat <==> HasToken(store)
    ensures p != Signup
  {
    if HasToken(store) then Chat else Login
  }

  /** The page a handler switches to. */
  function Target(e: Event): (p: Page)
    ensures p == Chat <==> e == LoginAuthSuccess
    ensures p == Signup <==> e == LoginSwitch
    ensures e == SignupSwitch || e == SignupAuthSuccess || e == Logout ==> p == Login
  {
    match e
    case LoginSwitch => Signup
    case LoginAuthSuccess => Chat
    case SignupSwitch => Login
    case SignupAuthSuccess => Login
    case Logout => Login
  }

  /** Storage after `handleLogout`: exactly the three session keys are gone. */
  function WithoutSession(store: Storage): (r: Storage)
    ensures forall k :: k in r <==> k in store && k !in SessionKeys
    ensures forall k :: k in r ==> r[k] == store[k]
    ensures !HasToken(r)
  {
    store - SessionKeys
  }

  /** The app's mounted views, one per `page === ...` test in the render. */
  datatype View = LoginView | SignupView | ChatView

  function ShownViews(p: Page): (vs: set<View>)
    ensures |vs| == 1
    ensures LoginView in vs <==> p == Login
    ensures SignupView in vs <==> p == Signup
    ensures ChatView in vs <==> p == Chat
  {
    (if p == Login then {LoginView} else {})
    + (if p == Signup then {SignupView} else {})
    + (if p == Chat then {ChatView} else {})
  }

  /** The page reached after a sequence of events from a stored session. */
  function Run(store: Storage, es: seq<Event>): Page {
    if es == [] then InitialPage(store) else Target(es[|es| - 1])
  }

  /** The chat page is reached only through a stored token or a successful
      sign-in: never straight from signup. */
  lemma {:induction false} ChatOnlyAfterLogin(store: Storage, es: seq<Event>)
    requires Run(store, es) == Chat
    ensures es == [] ==> HasToken(store)
    ensures es != [] ==> es[|es| - 1] == LoginAuthSuccess
  {
  }

  /** After a logout, a reload of the app opens on the login page. */
  lemma ReloadAfterLogout(store: Storage)
    ensures InitialPage(WithoutSession(store)) == Login
  {
  }

  class AppState {
    var page: Page
    var storage: Storage

    constructor (store: Storage)
      ensures page == InitialPage(store) && storage == store
    {
      page := InitialPage(store);
      storage := store;
    }

    /** A view's callback: `setPage(...)`, with logout also clearing the session keys. */
    method Handle(e: Event)
      modifies this
      ensures page == Target(e)
      ensures storage == if e == Logout then WithoutSession(old(storage)) else old(storage)
    {
      if e == Logout {
        storage := WithoutSession(storage);
      }
      page := Target(e);
    }
  }
}
