/**
 * The values the session service reads and writes: what the storage holds,
 * the login and profile payloads, the HTTP outcomes it reacts to and the
 * normalised error it rethrows.
 */
module AuthTypes {
  import opened Wrappers

  datatype Rol = Rol(nombre: string)

  /** The cached user profile; `rol` is absent for a user without a role. */
  datatype Usuario = Usuario(id: int, nombre: string, rol: Option<Rol>)

  /** What the storage holds under a key: the token string or a user record. */
  datatype Value = Str(s: string) | User(u: Usuario)

  /** The storage: a key-to-value map. */
  type Storage = map<string, Value>

  datatype LoginRequest = LoginRequest(email: string, password: string)

  /** The `data` part of a successful login envelope. */
  datatype LoginResponse = LoginResponse(token: string, usuario: Usuario)

  /** One element of a validation error list; `msg` may be missing. */
  datatype FieldError = FieldError(msg: Option<string>)

  /** The `error` member of a failed response: `null`, a plain text body, or a
      JSON object whose `message` and `errors` members may each be missing. */
  datatype ErrorBody =
    | NullBody
    | TextBody(text: string)
    | JsonBody(message: Option<string>, errors: Option<seq<FieldError>>)

  /** One HTTP exchange as the service sees it: the success envelope's `data`,
      or a failure with its status and error body. */
  datatype Response<T> = Ok(data: T) | Err(status: int, body: ErrorBody)

  /** What a failed request rejects with: the normalised
      `{status, message, errors}` object, or the `TypeError` raised when the
      handler itself dereferences something that is not there. */
  datatype Rejection =
    | Normalized(status: int, message: Option<string>, errors: Option<seq<FieldError>>)
    | TypeError

  /** How an observable returned by the service ends. */
  datatype Outcome<T> = Resolved(value: T) | Rejected(reason: Rejection)

  /** `storageService.getItem(key)`: `null` when the key was never set or was cleared. */
  function GetItem(store: Storage, key: string): (v: Option<Value>)
    ensures v.Some? <==> key in store
    ensures v.Some? ==> v.value == store[key]
  {
    if key in store then Some(store[key]) else None
  }

  /** JavaScript truthiness of a value read from the storage. */
  predicate Truthy(v: Option<Value>)
    ensures Truthy(v) <==> v.Some? && v.value != Str("")
  {
    match v
    case None => false
    case Some(Str(s)) => s != ""
    case Some(User(_)) => true
  }

  /** Truthiness of `user.rol` for a value read from the storage; a string has
      no `rol` member. */
  predicate HasRol(v: Option<Value>)
    ensures HasRol(v) ==> Truthy(v)
    ensures v.None? || v.value.Str? ==> !HasRol(v)
  {
    v.Some? && v.value.User? && v.value.u.rol.Some?
  }

  /** How a value read from the storage renders inside a template literal. */
  function TemplateText(v: Option<Value>): (t: string)
    ensures v.None? ==> t == "null"
    ensures v.Some? && v.value.Str? ==> t == v.value.s
    ensures v.Some? && v.value.User? ==> t == "[object Object]"
    ensures t == "null" ==> v.None? || v == Some(Str("null"))
  {
    match v
    case None => "null"
    case Some(Str(s)) => s
    case Some(User(_)) => "[object Object]"
  }

  const BearerPrefix: string := "Bearer "

  /** The `Authorization` header value built from the current token. */
  function BearerHeader(token: Option<Value>): (h: string)
    ensures |h| >= |BearerPrefix| && h[..|BearerPrefix|] == BearerPrefix
    ensures token.Some? && token.value.Str? ==> h[|BearerPrefix|..] == token.value.s
    ensures token.None? ==> h == "Bearer null"
  {
    BearerPrefix + TemplateText(token)
  }
}
