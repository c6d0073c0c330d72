/**
 * `AuthService`: the session held in the storage under two well-known keys,
 * the authorisation questions answered from it, the login and profile
 * requests, and the central reaction to failed requests.
 */
module Auth {
  import opened Wrappers
  import opened JsStrings
  import opened AuthTypes
  import opened ErrorHandling

  /** Where `logout` sends the user. */
  const LoginRoute: string := "/auth/login"

  class AuthService {
    /** The configured storage keys for the token and the cached user. */
    const tokenKey: string
    const userKey: string

    /** The storage the service reads and writes. */
    var store: Storage

    /** Navigations requested from the router, oldest first. */
    ghost var navigations: seq<string>
    /** Texts of the error dialogs shown, oldest first (`None`: an undefined text). */
    ghost var alerts: seq<Option<string>>

    /** The two keys are distinct, so writing one never overwrites the other. */
    predicate Valid()
    {
      tokenKey != userKey
    }

    /** A service over a storage that may already hold a session from an earlier run. */
    constructor (tokenKey: string, userKey: string, initial: Storage)
      requires tokenKey != userKey
      ensures Valid() && this.tokenKey == tokenKey && this.userKey == userKey
      ensures store == initial && navigations == [] && alerts == []
    {
      this.tokenKey := tokenKey;
      this.userKey := userKey;
      store := initial;
      navigations := [];
      alerts := [];
    }

    /** `getToken`: the value stored under the token key, absent if none. */
    function GetToken(): (t: Option<Value>)
      reads this
      ensures t.Some? <==> tokenKey in store
      ensures t.Some? ==> t.value == store[tokenKey]
    {
      GetItem(store, tokenKey)
    }

    /** `isAuthenticated`: a token is stored and it is not the empty string. */
    function IsAuthenticated(): (b: bool)
      reads this
      ensures b <==> tokenKey in store && store[tokenKey] != Str("")
    {
      Truthy(GetToken())
    }

    /** `hasRole`: the cached user has a role whose name is one of `roles`. */
    function HasRole(roles: seq<string>): (b: bool)
      reads this
      ensures b <==> userKey in store && store[userKey].User? && store[userKey].u.rol.Some?
                     && store[userKey].u.rol.value.nombre in roles
      ensures roles == [] ==> !b
      ensures (userKey !in store || !store[userKey].User? || store[userKey].u.rol.None?) ==> !b
    {
      var user := GetItem(store, userKey);
      if !Truthy(user) || !HasRol(user) then false
      else Includes(roles, user.value.u.rol.value.nombre)
    }

    /** `logout`: clears the whole storage and navigates to the login page. */
    method Logout()
      modifies this
      ensures store == map[] && navigations == old(navigations) + [LoginRoute]
      ensures alerts == old(alerts)
      ensures !IsAuthenticated() && GetItem(store, userKey).None?
      ensures forall roles :: !HasRole(roles)
    {
      store := map[];
      navigations := navigations + [LoginRoute];
    }

    /** `handleError` called on the service: report the failure, end the
        session on a 401, and return what the request is rejected with. */
    method HandleError(status: int, body: ErrorBody) returns (e: Rejection)
      modifies this
      ensures e == Handle(status, body, true).rejection
      ensures e.Normalized? ==> e.status == status && e.errors == PassedErrors(body)
      ensures alerts == if e.Normalized? then old(alerts) + [e.message] else old(alerts)
      ensures Handle(status, body, true).logsOut ==> store == map[] && navigations == old(navigations) + [LoginRoute]
      ensures !Handle(status, body, true).logsOut ==> store == old(store) && navigations == old(navigations)
      ensures status == 401 && !body.NullBody? ==> !IsAuthenticated() && forall roles :: !HasRole(roles)
      ensures status != 401 ==> store == old(store)
    {
      var h := Handle(status, body, true);
      if h.logsOut {
        Logout();
      }
      if h.rejection.Normalized? {
        alerts := alerts + [h.rejection.message];
      }
      e := h.rejection;
    }

    /** `login`: one request to the login endpoint (`post`); on success the
        token and then the user are written, on failure the handler decides. */
    method Login(credentials: LoginRequest, post: LoginRequest -> Response<LoginResponse>)
      returns (r: Outcome<LoginResponse>)
      requires Valid()
      modifies this
      ensures post(credentials).Ok? ==>
                var d := post(credentials).data;
                && r == Resolved(d)
                && store == old(store)[tokenKey := Str(d.token)][userKey := User(d.usuario)]
                && navigations == old(navigations) && alerts == old(alerts)
      ensures post(credentials).Ok? ==>
                var d := post(credentials).data;
                && GetToken() == Some(Str(d.token))
                && (IsAuthenticated() <==> d.token != "")
                && forall roles :: HasRole(roles) <==> d.usuario.rol.Some? && d.usuario.rol.value.nombre in roles
      ensures post(credentials).Err? ==>
                var Err(status, body) := post(credentials);
                && r == Rejected(Handle(status, body, true).rejection)
                && store == (if Handle(status, body, true).logsOut then map[] else old(store))
                && navigations == old(navigations) + (if Handle(status, body, true).logsOut then [LoginRoute] else [])
                && alerts == old(alerts) + (if r.reason.Normalized? then [r.reason.message] else [])
    {
      var response := post(credentials);
      match response
      case Ok(data) =>
        store := store[tokenKey := Str(data.token)];
        store := store[userKey := User(data.usuario)];
        r := Resolved(data);
      case Err(status, body) =>
        var e := HandleError(status, body);
        r := Rejected(e);
    }

    /** `getPerfil`: one request to the profile endpoint (`get`, which sees
        only the `Authorization` header). It writes nothing itself; a 401
        clears the storage through the handler. */
    method GetPerfil(get: string -> Response<Usuario>) returns (r: Outcome<Usuario>)
      modifies this
      ensures var response := get(BearerHeader(old(GetToken())));
              response.Ok? ==>
                r == Resolved(response.data) && store == old(store)
                && navigations == old(navigations) && alerts == old(alerts)
      ensures var response := get(BearerHeader(old(GetToken())));
              response.Err? ==>
                && r == Rejected(Handle(response.status, response.body, true).rejection)
                && store == (if Handle(response.status, response.body, true).logsOut then map[] else old(store))
                && navigations == old(navigations)
                                  + (if Handle(response.status, response.body, true).logsOut then [LoginRoute] else [])
                && alerts == old(alerts) + (if r.reason.Normalized? then [r.reason.message] else [])
    {
      var header := BearerHeader(GetToken());
      var response := get(header);
      match response
      case Ok(data) =>
        r := Resolved(data);
      case Err(status, body) =>
        var e := HandleError(status, body);
        r := Rejected(e);
    }
  }
}
