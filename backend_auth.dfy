/** Access-token construction on the server: the claims put into a token
    and the signing algorithm. Signing and encoding themselves are a
    parameter. Times are whole seconds since the epoch. */
module BackendAuth {
  import opened Wrappers

  /** A JSON claim value. `exp` is written as a NumericDate (section 4.1.4 of RFC 7519). */
  datatype ClaimValue = Text(text: string) | Number(number: int) | Null

  type ClaimSet = map<string, ClaimValue>

  const Algorithm := "HS256"
  const AccessTokenExpireMinutes := 300
  const DefaultExpireMinutes := 15

  /** The expiry time: `expires_delta` when it is truthy (present and not a
      zero duration), otherwise fifteen minutes. A negative duration is
      truthy and is used as given. */
  function ExpiryOf(now: int, expiresDelta: Option<int>): (exp: int)
    ensures expiresDelta.Some? && expiresDelta.value != 0 ==> exp == now + expiresDelta.value
    ensures expiresDelta.None? || expiresDelta.value == 0 ==> exp == now + DefaultExpireMinutes * 60
  {
    if expiresDelta.Some? && expiresDelta.value != 0 then now + expiresDelta.value
    else now + DefaultExpireMinutes * 60
  }

  /** The payload of the token: every claim of `data` and `exp`, which
      replaces any `exp` already in `data`. */
  function AccessTokenClaims(data: ClaimSet, expiresDelta: Option<int>, now: int): (c: ClaimSet)
    ensures c.Keys == data.Keys + {"exp"}
    ensures c["exp"] == Number(ExpiryOf(now, expiresDelta))
    ensures forall k :: k in data && k != "exp" ==> c[k] == data[k]
  {
    data["exp" := Number(ExpiryOf(now, expiresDelta))]
  }

  /** `create_access_token`: a copy of `data` updated with `exp`, then
      signed with HS256. `encode` stands for `jwt.encode` with the
      configured secret. The caller's claim set is a value and is not
      changed. */
  method CreateAccessToken(data: ClaimSet, expiresDelta: Option<int>, now: int,
                           encode: (ClaimSet, string) -> string) returns (token: string)
    ensures token == encode(AccessTokenClaims(data, expiresDelta, now), Algorithm)
  {
    var toEncode := data;
    var expire: int;
    if expiresDelta.Some? && expiresDelta.value != 0 {
      expire := now + expiresDelta.value;
    } else {
      expire := now + DefaultExpireMinutes * 60;
    }
    toEncode := toEncode["exp" := Number(expire)];
    token := encode(toEncode, Algorithm);
  }
}
