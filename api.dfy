/** The server's endpoints that decide who may do what: the token
    endpoint, the current-user dependency and the protected product
    lookup. The user table, the product table, password verification and
    token decoding are parameters. */
module Api {
  import opened Wrappers
  import opened BackendAuth

  datatype UserRecord = UserRecord(id: int, username: string, hashedPassword: string, isActive: bool)

  datatype Product = Product(id: int, productCode: string, productName: string)

  /** An `HTTPException`: status, detail and the `WWW-Authenticate` header. */
  datatype HttpError = HttpError(status: int, detail: string, wwwAuthenticate: Option<string>)

  datatype Result<T> = Ok(value: T) | Err(error: HttpError)

  /** The token endpoint's body (section 5.1 of RFC 6749). */
  datatype TokenBody = TokenBody(accessToken: string, tokenType: string)

  const IncorrectCredentials := HttpError(401, "Incorrect username or password", Some("Bearer"))
  const InvalidCredentials := HttpError(401, "Could not validate credentials", Some("Bearer"))
  const ProductNotFound := HttpError(404, "Produto não encontrado", None)

  /** The claims the token endpoint signs for a user. */
  function LoginClaims(user: UserRecord, now: int): (c: ClaimSet)
    ensures c.Keys == {"sub", "exp"}
    ensures c["sub"] == Text(user.username)
    ensures c["exp"] == Number(now + AccessTokenExpireMinutes * 60)
  {
    AccessTokenClaims(map["sub" := Text(user.username)], Some(AccessTokenExpireMinutes * 60), now)
  }

  /** `POST /token`: an unknown user or a password that does not verify is
      a 401 with `WWW-Authenticate: Bearer`; otherwise a bearer token for
      `{"sub": username}` that expires in 300 minutes. */
  function LoginForAccessToken(
    findUser: string -> Option<UserRecord>, verifyPassword: (string, string) -> bool,
    encode: (ClaimSet, string) -> string, username: string, password: string, now: int): (r: Result<TokenBody>)
    ensures r.Err? <==> findUser(username).None? || !verifyPassword(password, findUser(username).value.hashedPassword)
    ensures r.Err? ==> r.error == IncorrectCredentials
    ensures r.Ok? ==> r.value.tokenType == "bearer"
    ensures r.Ok? ==> r.value.accessToken == encode(LoginClaims(findUser(username).value, now), Algorithm)
  {
    var user := findUser(username);
    if user.None? || !verifyPassword(password, user.value.hashedPassword) then Err(IncorrectCredentials)
    else Ok(TokenBody(encode(LoginClaims(user.value, now), Algorithm), "bearer"))
  }

  /** `get_current_user`. `decode` stands for `jwt.decode` with the secret
      and HS256; it yields nothing for a bad signature, a malformed or an
      expired token. A missing or null `sub` and an unknown user are 401s.
      A `sub` that is not a string is one too: the decoder's subject check
      raises a `JWTError`, which the handler turns into the same 401. */
  function GetCurrentUser(token: string, decode: string -> Option<ClaimSet>,
                          findUser: string -> Option<UserRecord>): (r: Result<UserRecord>)
    ensures decode(token).None? ==> r == Err(InvalidCredentials)
    ensures decode(token).Some? && ("sub" !in decode(token).value || !decode(token).value["sub"].Text?) ==>
      r == Err(InvalidCredentials)
    ensures r.Ok? <==> (decode(token).Some? && "sub" in decode(token).value && decode(token).value["sub"].Text?
                        && findUser(decode(token).value["sub"].text).Some?)
    ensures r.Ok? ==> r.value == findUser(decode(token).value["sub"].text).value
    ensures r.Err? ==> r.error == InvalidCredentials
  {
    match decode(token)
    case None => Err(InvalidCredentials)
    case Some(payload) =>
      if "sub" !in payload then Err(InvalidCredentials)
      else match payload["sub"]
        case Null => Err(InvalidCredentials)
        case Number(_) => Err(InvalidCredentials)
        case Text(username) =>
          match findUser(username)
          case None => Err(InvalidCredentials)
          case Some(user) => Ok(user)
  }

  /** `GET /api/products/{code}`: the current-user check comes first; then
      an unknown code is a 404. */
  function ReadProduct(code: string, token: string, decode: string -> Option<ClaimSet>,
                       findUser: string -> Option<UserRecord>, findProduct: string -> Option<Product>): (r: Result<Product>)
    ensures GetCurrentUser(token, decode, findUser).Err? ==> r == Err(GetCurrentUser(token, decode, findUser).error)
    ensures GetCurrentUser(token, decode, findUser).Ok? && findProduct(code).None? ==> r == Err(ProductNotFound)
    ensures r.Ok? <==> GetCurrentUser(token, decode, findUser).Ok? && findProduct(code).Some?
    ensures r.Ok? ==> r.value == findProduct(code).value
  {
    match GetCurrentUser(token, decode, findUser)
    case Err(e) => Err(e)
    case Ok(_) =>
      match findProduct(code)
      case None => Err(ProductNotFound)
      case Some(p) => Ok(p)
  }

  /** The two endpoints fit together: a token just issued for a user is
      accepted by the current-user check and yields that same user, as long
      as decoding gives back what was encoded and the user table finds a
      user under its own name. */
  lemma IssuedTokenAuthenticates(
    findUser: string -> Option<UserRecord>, verifyPassword: (string, string) -> bool,
    encode: (ClaimSet, string) -> string, decode: string -> Option<ClaimSet>,
    username: string, password: string, now: int)
    requires LoginForAccessToken(findUser, verifyPassword, encode, username, password, now).Ok?
    requires var u := findUser(username).value;
      decode(encode(LoginClaims(u, now), Algorithm)) == Some(LoginClaims(u, now))
      && findUser(u.username) == Some(u)
    ensures var token := LoginForAccessToken(findUser, verifyPassword, encode, username, password, now).value.accessToken;
      GetCurrentUser(token, decode, findUser) == Ok(findUser(username).value)
  {
    var u := findUser(username).value;
    assert LoginClaims(u, now)["sub"] == Text(u.username);
  }
}
