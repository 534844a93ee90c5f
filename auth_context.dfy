/** The browser session of the dashboard: who is logged in, the bearer
    credential attached to every request, the copy of the token kept in
    local storage under `authToken`, and the `'logout'` messages posted on
    the `auth-channel` broadcast channel so that other tabs log out too.

    Token decoding (`jwtDecode`) and the token request are parameters: the
    model only sees their results. */
module AuthContext {
  import opened Wrappers

  /** The claims the dashboard reads from a token: the subject and the
      expiry time in seconds since the epoch (sections 4.1.2 and 4.1.4 of
      RFC 7519). Either may be absent from a decodable token. */
  datatype Claims = Claims(sub: Option<string>, exp: Option<int>)

  /** `{ username: decodedToken.sub }`. */
  datatype User = User(username: Option<string>)

  /** The form fields of the token request (section 4.3.2 of RFC 6749). */
  type Form = seq<(string, string)>

  /** What the token request produced: an error (network, non-2xx status),
      or a response whose body may lack `access_token`. */
  datatype TokenResponse = RequestFailed | Responded(accessToken: Option<string>)

  const LogoutMessage := "logout"

  /** `new URLSearchParams()` with `username` then `password` appended. */
  function TokenForm(username: string, password: string): (f: Form)
    ensures |f| == 2 && f[0] == ("username", username) && f[1] == ("password", password)
  {
    [("username", username), ("password", password)]
  }

  /** The `Authorization` header value (section 2.1 of RFC 6750). */
  function BearerHeader(token: string): (h: string)
    ensures |h| == |token| + 7 && h[..7] == "Bearer " && h[7..] == token
  {
    "Bearer " + token
  }

  /** Distinct tokens give distinct headers. */
  lemma BearerHeaderInjective(t1: string, t2: string)
    requires BearerHeader(t1) == BearerHeader(t2)
    ensures t1 == t2
  {
    assert t1 == BearerHeader(t1)[7..];
  }

  /** JavaScript truthiness of the token state: `!!token`. */
  predicate Truthy(token: Option<string>) {
    token.Some? && token.value != ""
  }

  /** `decodedToken.exp * 1000 < Date.now()`, with `now` in milliseconds. A
      missing `exp` multiplies to NaN, which is never smaller than anything,
      so such a token never counts as expired. */
  predicate Expired(c: Claims, now: int) {
    c.exp.Some? && c.exp.value * 1000 < now
  }

  /** `jwtDecode` throws on the empty string: it has no header part. */
  ghost predicate RejectsEmpty(decode: string -> Option<Claims>) {
    decode("").None?
  }

  /** The session as a value: React's `token` and `user` state, the shared
      HTTP client's default `Authorization` header, the stored `authToken`
      entry, and every message this tab posted on the channel. */
  datatype Session = Session(
    token: Option<string>,
    user: Option<User>,
    authorization: Option<string>,
    stored: Option<string>,
    outbox: seq<string>)

  /** The header is present exactly when the token is truthy, and then
      carries that token. */
  ghost predicate Consistent(s: Session) {
    if Truthy(s.token) then s.authorization == Some(BearerHeader(s.token.value))
    else s.authorization.None?
  }

  /** A tab that holds no credential anywhere. */
  ghost predicate LoggedOut(s: Session) {
    s.token.None? && s.user.None? && s.authorization.None? && s.stored.None?
  }

  /** `logout(broadcast)`: everything cleared; one `'logout'` posted iff `broadcast`. */
  function AfterLogout(s: Session, broadcast: bool): (r: Session)
    ensures LoggedOut(r) && Consistent(r)
    ensures r.outbox == if broadcast then s.outbox + [LogoutMessage] else s.outbox
  {
    Session(None, None, None, None, if broadcast then s.outbox + [LogoutMessage] else s.outbox)
  }

  /** The mount effect. No stored token (or an empty one): nothing happens.
      A stored token that does not decode, or has expired: local logout
      without a broadcast. Otherwise the token, the user and the header
      are installed; `exp * 1000 == now` is still valid. */
  function AfterInitialize(s: Session, decode: string -> Option<Claims>, now: int): (r: Session)
    ensures r.outbox == s.outbox
    ensures !Truthy(s.stored) ==> r == s
    ensures Truthy(s.stored) && (decode(s.stored.value).None? || Expired(decode(s.stored.value).value, now)) ==>
      LoggedOut(r)
    ensures Truthy(s.stored) && decode(s.stored.value).Some? && !Expired(decode(s.stored.value).value, now) ==>
      && r.token == s.stored && r.stored == s.stored
      && r.user == Some(User(decode(s.stored.value).value.sub))
      && r.authorization == Some(BearerHeader(s.stored.value))
  {
    if !Truthy(s.stored) then s
    else
      var t := s.stored.value;
      match decode(t)
      case None => AfterLogout(s, false)
      case Some(c) =>
        if Expired(c, now) then AfterLogout(s, false)
        else s.(token := Some(t), user := Some(User(c.sub)), authorization := Some(BearerHeader(t)))
  }

  /** The channel's message handler: only the exact string `'logout'` acts,
      and it clears without posting anything. */
  function AfterMessage(s: Session, data: string): (r: Session)
    ensures r.outbox == s.outbox
    ensures data == LogoutMessage ==> LoggedOut(r)
    ensures data != LogoutMessage ==> r == s
  {
    if data == LogoutMessage then s.(token := None, user := None, authorization := None, stored := None)
    else s
  }

  /** `login`: success needs a response carrying an `access_token` that
      decodes; it installs the token everywhere and posts nothing. Every
      failure is a local logout, which also ends a session that was valid
      before, and yields false. */
  function AfterLogin(s: Session, response: TokenResponse, decode: string -> Option<Claims>): (r: (Session, bool))
    ensures r.0.outbox == s.outbox
    ensures r.1 <==> response.Responded? && response.accessToken.Some? && decode(response.accessToken.value).Some?
    ensures r.1 ==>
      var t := response.accessToken.value;
      && r.0.token == Some(t) && r.0.stored == Some(t)
      && r.0.authorization == Some(BearerHeader(t))
      && r.0.user == Some(User(decode(t).value.sub))
    ensures !r.1 ==> LoggedOut(r.0)
  {
    if response.RequestFailed? || response.accessToken.None? then (AfterLogout(s, false), false)
    else
      var t := response.accessToken.value;
      match decode(t)
      case None => (AfterLogout(s, false), false)
      case Some(c) =>
        (s.(user := Some(User(c.sub)), token := Some(t), authorization := Some(BearerHeader(t)), stored := Some(t)), true)
  }

  /** A fresh tab: `useState(localStorage.getItem('authToken'))`, no user,
      no header, nothing posted. */
  function FreshTab(stored: Option<string>): (s: Session)
    ensures s.token == s.stored == stored && s.authorization.None? && s.outbox == []
  {
    Session(stored, None, None, stored, [])
  }

  /** After the mount effect, a fresh tab's header agrees with its token. */
  lemma InitializeConsistent(stored: Option<string>, decode: string -> Option<Claims>, now: int)
    ensures Consistent(AfterInitialize(FreshTab(stored), decode, now))
  {
    var s := FreshTab(stored);
    if Truthy(s.stored) {
      var t := s.stored.value;
      if decode(t).Some? && !Expired(decode(t).value, now) {
        assert AfterInitialize(s, decode, now).token == Some(t);
      }
    }
  }

  /** A fresh tab whose stored token has expired ends logged out with
      storage cleared, having posted nothing. */
  lemma ExpiredTokenSelfHeals(t: string, decode: string -> Option<Claims>, now: int)
    requires t != "" && decode(t).Some? && Expired(decode(t).value, now)
    ensures LoggedOut(AfterInitialize(FreshTab(Some(t)), decode, now))
    ensures AfterInitialize(FreshTab(Some(t)), decode, now).outbox == []
  {
  }

  /** A login whose decoder rejects the empty string keeps the header in step. */
  lemma LoginConsistent(s: Session, response: TokenResponse, decode: string -> Option<Claims>)
    requires RejectsEmpty(decode)
    ensures Consistent(AfterLogin(s, response, decode).0)
  {
    var r := AfterLogin(s, response, decode);
    if r.1 {
      var t := response.accessToken.value;
      assert t != "" by {
        if t == "" { assert false; }
      }
      assert Truthy(r.0.token);
    }
  }

  /** Logging out twice without broadcasting is the same as once. */
  lemma LocalLogoutIdempotent(s: Session)
    ensures AfterLogout(AfterLogout(s, false), false) == AfterLogout(s, false)
  {
  }

  /** The operations a tab can perform after mounting. */
  datatype Event = Login(response: TokenResponse) | Logout(broadcast: bool) | Message(data: string)

  function Step(s: Session, e: Event, decode: string -> Option<Claims>): (r: Session)
  {
    match e
    case Login(response) => AfterLogin(s, response, decode).0
    case Logout(b) => AfterLogout(s, b)
    case Message(data) => AfterMessage(s, data)
  }

  function Run(s: Session, events: seq<Event>, decode: string -> Option<Claims>): Session
    decreases |events|
  {
    if events == [] then s else Run(Step(s, events[0], decode), events[1..], decode)
  }

  /** How many of the events are broadcasting logouts. */
  function BroadcastCount(events: seq<Event>): nat
  {
    if events == [] then 0
    else (if events[0].Logout? && events[0].broadcast then 1 else 0) + BroadcastCount(events[1..])
  }

  /** Whatever the sequence of logins, logouts and messages, the header
      stays in step with the token after every operation. */
  lemma {:induction false} RunConsistent(s: Session, events: seq<Event>, decode: string -> Option<Claims>)
    requires Consistent(s) && RejectsEmpty(decode)
    ensures Consistent(Run(s, events, decode))
    decreases |events|
  {
    if events != [] {
      var e := events[0];
      match e {
        case Login(response) => LoginConsistent(s, response, decode);
        case Logout(b) =>
        case Message(data) =>
      }
      RunConsistent(Step(s, e, decode), events[1..], decode);
    }
  }

  /** Only explicit broadcasting logouts post, one `'logout'` each: logins
      and received messages never do, so tabs cannot echo one another. */
  lemma {:induction false} RunPostsOnlyBroadcasts(s: Session, events: seq<Event>, decode: string -> Option<Claims>)
    ensures var r := Run(s, events, decode);
      && |r.outbox| == |s.outbox| + BroadcastCount(events)
      && r.outbox[..|s.outbox|] == s.outbox
      && forall i :: |s.outbox| <= i < |r.outbox| ==> r.outbox[i] == LogoutMessage
    decreases |events|
  {
    if events != [] {
      var s' := Step(s, events[0], decode);
      RunPostsOnlyBroadcasts(s', events[1..], decode);
      var r := Run(s', events[1..], decode);
      assert r.outbox[..|s'.outbox|] == s'.outbox;
      assert s'.outbox[..|s.outbox|] == s.outbox;
      assert forall i :: |s.outbox| <= i < |s'.outbox| ==> s'.outbox[i] == LogoutMessage;
    }
  }

  /** Two tabs: A logs out with a broadcast and B receives what A posted. B
      ends logged out, B posts nothing, and one message was sent in all. */
  lemma CrossTabConvergence(a: Session, b: Session)
    ensures var a' := AfterLogout(a, true);
      && |a'.outbox| == |a.outbox| + 1
      && LoggedOut(a') && LoggedOut(AfterMessage(b, a'.outbox[|a'.outbox| - 1]))
      && AfterMessage(b, a'.outbox[|a'.outbox| - 1]).outbox == b.outbox
  {
  }

  /** One browser tab's session. */
  class AuthProvider {
    var token: Option<string>
    var user: Option<User>
    var authorization: Option<string>
    var stored: Option<string>
    var outbox: seq<string>

    ghost function State(): Session
      reads this
    {
      Session(token, user, authorization, stored, outbox)
    }

    /** The first render, before the effects run. `stored` is what local
      storage holds under `authToken`. */
    constructor (storedToken: Option<string>)
      ensures State() == FreshTab(storedToken)
    {
      token := storedToken;
      user := None;
      authorization := None;
      stored := storedToken;
      outbox := [];
    }

    /** `isAuthenticated = !!token`: an empty token is not authenticated. */
    function IsAuthenticated(): (b: bool)
      reads this
      ensures b <==> token.Some? && token.value != ""
    {
      Truthy(token)
    }

    method Logout(broadcast: bool := true)
      modifies this
      ensures State() == AfterLogout(old(State()), broadcast)
      ensures Consistent(State())
    {
      if broadcast {
        outbox := outbox + [LogoutMessage];
      }
      token := None;
      user := None;
      authorization := None;
      stored := None;
    }

    /** The mount effect, given the decoder and the clock (milliseconds). */
    method Initialize(decode: string -> Option<Claims>, now: int)
      modifies this
      ensures State() == AfterInitialize(old(State()), decode, now)
    {
      var storedToken := stored;
      if storedToken.Some? && storedToken.value != "" {
        var decoded := decode(storedToken.value);
        if decoded.None? {
          Logout(false);
        } else if decoded.value.exp.Some? && decoded.value.exp.value * 1000 < now {
          Logout(false);
        } else {
          token := storedToken;
          user := Some(User(decoded.value.sub));
          authorization := Some(BearerHeader(storedToken.value));
        }
      }
    }

    /** The `auth-channel` message listener. */
    method HandleMessage(data: string)
      modifies this
      ensures State() == AfterMessage(old(State()), data)
    {
      if data == LogoutMessage {
        token := None;
        user := None;
        authorization := None;
        stored := None;
      }
    }

    /** `login(username, password)`. `tokenEndpoint` stands for the
      form-encoded POST to `/token` and what came back. */
    method Login(username: string, password: string, tokenEndpoint: Form -> TokenResponse,
                 decode: string -> Option<Claims>) returns (success: bool)
      modifies this
      ensures (State(), success) == AfterLogin(old(State()), tokenEndpoint(TokenForm(username, password)), decode)
    {
      var params := TokenForm(username, password);
      var response := tokenEndpoint(params);
      if response.RequestFailed? || response.accessToken.None? {
        Logout(false);
        return false;
      }
      var newToken := response.accessToken.value;
      var decoded := decode(newToken);
      if decoded.None? {
        Logout(false);
        return false;
      }
      user := Some(User(decoded.value.sub));
      token := Some(newToken);
      authorization := Some(BearerHeader(newToken));
      stored := Some(newToken);
      return true;
    }
  }
}
