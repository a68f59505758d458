/** The mock session: three keys in the browser's local storage, written at
    login or sign-up and read back by the route guard.  The route table says
    which pages are open to everyone, which need any signed-in user and which
    need one user type. */
module Session {
  import opened Common

  /** The part of the browser the session uses: local storage and the
      current location. */
  class Browser {
    var store: map<string, string>
    var path: string

    constructor(store: map<string, string>, path: string)
      ensures this.store == store && this.path == path
    {
      this.store := store;
      this.path := path;
    }

    /** `localStorage.setItem`. */
    method SetItem(key: string, value: string)
      modifies this
      ensures store == old(store)[key := value] && path == old(path)
    {
      store := store[key := value];
    }

    /** `navigate(to)`. */
    method Navigate(to: string)
      modifies this
      ensures path == to && store == old(store)
    {
      path := to;
    }
  }

  /** What a successful login or sign-up writes, and where it goes next. */
  datatype Account = Account(userType: string, userId: string, userName: string, home: string)

  /** The storage after the three writes, in the pages' order. */
  function Written(store: map<string, string>, a: Account): (s: map<string, string>)
    ensures s.Keys == store.Keys + {"mockUser", "mockUserId", "mockUserName"}
    ensures s["mockUser"] == a.userType && s["mockUserId"] == a.userId && s["mockUserName"] == a.userName
    ensures forall k :: k in store && k !in {"mockUser", "mockUserId", "mockUserName"} ==> s[k] == store[k]
  {
    store["mockUser" := a.userType]["mockUserId" := a.userId]["mockUserName" := a.userName]
  }

  /** `localStorage.getItem('mockUser')` is truthy. */
  predicate SignedIn(store: map<string, string>)
  {
    "mockUser" in store && store["mockUser"] != ""
  }

  datatype Decision = Render | RedirectTo(target: string)

  /** `ProtectedRoute`: no stored user goes to the login page; a stored user
      of another type than the one required goes home; anyone else sees the
      page.  An absent or empty requirement is no requirement. */
  function ProtectedRoute(store: map<string, string>, required: Option<string>): (d: Decision)
    ensures d == RedirectTo("/login") <==> !SignedIn(store)
    ensures d == RedirectTo("/") <==>
      SignedIn(store) && required.Some? && required.value != "" && required.value != store["mockUser"]
    ensures d == Render <==>
      SignedIn(store) && (required.None? || required.value == "" || required.value == store["mockUser"])
  {
    var userType := if "mockUser" in store then store["mockUser"] else "";
    if !Truthy(userType) then RedirectTo("/login")
    else if required.Some? && Truthy(required.value) && userType != required.value then RedirectTo("/")
    else Render
  }

  datatype Access = Public | Guarded(required: Option<string>)

  /** The route table. */
  const Routes: map<string, Access> := map[
    "/" := Public,
    "/login" := Public,
    "/signup/:userType" := Public,
    "/dashboard/breeder" := Guarded(Some("breeder")),
    "/breeder/:breederId" := Guarded(None),
    "/dog/:dogId" := Guarded(None),
    "/litter/:litterId" := Guarded(None),
    "/search" := Guarded(Some("buyer")),
    "/trust-score-info" := Guarded(None)
  ]

  /** What opening a route shows; None for a path the table does not match. */
  function Visit(store: map<string, string>, route: string): Option<Decision>
  {
    if route !in Routes then None
    else match Routes[route]
      case Public => Some(Render)
      case Guarded(required) => Some(ProtectedRoute(store, required))
  }

  /** Only the breeder dashboard and the search page ask for a user type. */
  lemma TypedRoutes(route: string)
    requires route in Routes
    ensures Routes[route].Guarded? && Routes[route].required.Some? <==> route == "/dashboard/breeder" || route == "/search"
    ensures route == "/dashboard/breeder" ==> Routes[route] == Guarded(Some("breeder"))
    ensures route == "/search" ==> Routes[route] == Guarded(Some("buyer"))
    ensures Routes[route].Public? <==> route == "/" || route == "/login" || route == "/signup/:userType"
  {
  }

  /** A typed route shows its page exactly to a stored user of that type, a
      route guarded without a type to any signed-in user, and an open route
      to everyone. */
  lemma VisitMeaning(store: map<string, string>, route: string)
    requires route in Routes
    ensures Routes[route].Public? ==> Visit(store, route) == Some(Render)
    ensures Routes[route] == Guarded(None) ==> (Visit(store, route) == Some(Render) <==> SignedIn(store))
    ensures Routes[route].Guarded? && Routes[route].required.Some? ==>
      (Visit(store, route) == Some(Render) <==> "mockUser" in store && store["mockUser"] == Routes[route].required.value)
  {
    TypedRoutes(route);
  }
}
