/**
 * Clients of the service that follow a session through concrete exchanges,
 * using only the contracts of `AuthService`.
 */
module Scenarios {
  import opened Wrappers
  import opened AuthTypes
  import opened ErrorHandling
  import opened Auth

  const TokenKey: string := "token"
  const UserKey: string := "usuario"

  /** Logging out a second time leaves the storage as the first call left it;
      each call asks for one more navigation to the login page. */
  method LogoutTwice(s: AuthService) returns (afterOnce: Storage)
    modifies s
    ensures s.store == afterOnce && afterOnce == map[]
    ensures s.navigations == old(s.navigations) + [LoginRoute, LoginRoute]
    ensures !s.IsAuthenticated()
  {
    s.Logout();
    afterOnce := s.store;
    s.Logout();
  }

  /** A successful login with a role: authenticated, that role granted, another refused. */
  method LoginAsAdmin() returns (authenticated: bool, admin: bool, viewer: bool)
    ensures authenticated && admin && !viewer
  {
    var s := new AuthService(TokenKey, UserKey, map[]);
    var ana := Usuario(1, "Ana", Some(Rol("admin")));
    var r := s.Login(LoginRequest("a@b.com", "secret1"),
                     (c: LoginRequest) => Ok(LoginResponse("tok-123", ana)));
    authenticated := s.IsAuthenticated();
    admin := s.HasRole(["admin"]);
    viewer := s.HasRole(["viewer"]);
  }

  /** A profile request answered 401 ends a running session and rejects with
      the normalised error carrying the body's message. */
  method ExpiredTokenOnProfile() returns (r: Outcome<Usuario>, authenticated: bool, ghost alerted: seq<Option<string>>)
    ensures r == Rejected(Normalized(401, Some("token expired"), None))
    ensures !authenticated
    ensures alerted == [Some("token expired")]
  {
    var s := new AuthService(TokenKey, UserKey, map[TokenKey := Str("tok-123")]);
    r := s.GetPerfil((h: string) => Err(401, JsonBody(Some("token expired"), None)));
    authenticated := s.IsAuthenticated();
    alerted := s.alerts;
  }

  /** The two field messages of a rejected login, on two lines. */
  lemma ValidationOfTwo()
    ensures ValidationMessage([FieldError(Some("email invalid")), FieldError(Some("secret too short"))])
            == "email invalid\nsecret too short"
  {
    var errs := [FieldError(Some("email invalid")), FieldError(Some("secret too short"))];
    assert errs[1..] == [FieldError(Some("secret too short"))];
    var texts := MsgTexts(errs);
    assert texts == ["email invalid", "secret too short"];
    assert texts[1..] == ["secret too short"];
  }

  /** A login answered 400 with two field errors: both messages on two lines,
      and the storage untouched. */
  method RejectedLogin() returns (r: Outcome<LoginResponse>, untouched: bool, authenticated: bool)
    ensures r == Rejected(Normalized(400, Some("email invalid\nsecret too short"),
                                     Some([FieldError(Some("email invalid")), FieldError(Some("secret too short"))])))
    ensures untouched && !authenticated
  {
    var errs := [FieldError(Some("email invalid")), FieldError(Some("secret too short"))];
    ValidationOfTwo();
    var s := new AuthService(TokenKey, UserKey, map[]);
    r := s.Login(LoginRequest("a@b.com", "secret1"), (c: LoginRequest) => Err(400, JsonBody(None, Some(errs))));
    untouched := s.store == map[];
    authenticated := s.IsAuthenticated();
  }

  /** A login answered 500: the body's message verbatim, storage untouched. */
  method FailedLogin() returns (r: Outcome<LoginResponse>, untouched: bool)
    ensures r == Rejected(Normalized(500, Some("internal error"), None))
    ensures untouched
  {
    var s := new AuthService(TokenKey, UserKey, map[]);
    r := s.Login(LoginRequest("a@b.com", "secret1"), (c: LoginRequest) => Err(500, JsonBody(Some("internal error"), None)));
    untouched := s.store == map[];
  }
}
