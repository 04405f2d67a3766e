/** The authentication back end: registration into a user store, login that
    issues a one-hour JSON Web Token, the `authenticateJWT` gate, and logout
    into a process-wide token blacklist.

    bcrypt and the JWT library are foreign code. They enter as function
    values (`Bcrypt`, `Jwt`) that the server is built with, constrained only
    by the laws the back end relies on (`BcryptLaws`, `JwtLaws`). The clock
    (`now`, in seconds) and bcrypt's random salt are parameters. */
module AuthServer {
  import opened Wrappers
  import opened JsText

  type UserId = nat
  type Salt = nat

  /** What `bcrypt.hash` returns; the store keeps values of this type, never a plain password. */
  datatype Digest = Digest(text: string)

  datatype Bcrypt = Bcrypt(hash: (string, Salt) -> Digest, compare: (string, Digest) -> bool)

  /** `bcrypt.compare(p, bcrypt.hash(p, rounds))` holds whatever salt the hash drew. */
  ghost predicate BcryptLaws(b: Bcrypt) {
    forall p, salt :: b.compare(p, b.hash(p, salt))
  }

  /** The claims `jwt.sign` is given: `{ id: user._id, username: user.username }`. */
  datatype Claims = Claims(id: UserId, username: string)

  /** `expiresIn: "1h"`, in seconds. */
  const TokenLifetime: int := 3600

  /** `sign(claims, issuedAt)` and `verify(token, now)` with the server's secret key built in. */
  datatype Jwt = Jwt(sign: (Claims, int) -> string, verify: (string, int) -> Option<Claims>)

  /** A signed token decodes to its claims until one hour after issue, and not
      from then on; a compact token is non-empty and has no space in it. */
  ghost predicate JwtLaws(j: Jwt) {
    && (forall c, issuedAt, now :: j.verify(j.sign(c, issuedAt), now)
          == if now < issuedAt + TokenLifetime then Some(c) else None)
    && (forall c, issuedAt :: j.sign(c, issuedAt) != [] && ' ' !in j.sign(c, issuedAt))
  }

  datatype User = User(id: UserId, username: string, email: string, password: Digest)

  /** The JSON bodies the handlers send. */
  datatype Body = Error(error: string) | Message(message: string) | LoginSuccess(message: string, token: string)

  datatype Reply = Reply(status: int, body: Body)

  const AllFieldsRequired := "All fields are required."
  const UserExists := "User already exists."
  const Registered := "User registered successfully."
  const UnknownUser := "Invalid username or email."
  const WrongPassword := "Invalid password."
  const LoggedIn := "Login successful."
  const NoToken := "Access denied. No token provided."
  const Invalidated := "Token has been invalidated. Please log in again."
  const InvalidOrExpired := "Invalid or expired token."
  const LoggedOut := "Logout successful."
  const InvalidToken := "Invalid token."
  const InternalError := "Internal server error."

  /** JavaScript falsiness of a request-body field: absent, or the empty string. */
  predicate Missing(v: Option<string>) {
    v.None? || v.value == []
  }

  /** The two filters the handlers give `User.findOne`, and the key of the
      schema's unique index on `username`. */
  datatype Query = EmailIs(email: string) | UsernameOrEmailIs(key: string) | UsernameIs(name: string)

  predicate Matches(u: User, q: Query) {
    match q
    case EmailIs(e) => u.email == e
    case UsernameOrEmailIs(k) => u.username == k || u.email == k
    case UsernameIs(n) => u.username == n
  }

  /** `users[i]` is the document `findOne(q)` returns: the first match in store order. */
  predicate FirstMatch(users: seq<User>, q: Query, i: int) {
    && 0 <= i < |users|
    && Matches(users[i], q)
    && forall j :: 0 <= j < i ==> !Matches(users[j], q)
  }

  predicate NoMatch(users: seq<User>, q: Query) {
    forall j :: 0 <= j < |users| ==> !Matches(users[j], q)
  }

  /** `User.findOne(q)`, as an index into the store. */
  function FindOne(users: seq<User>, q: Query): (r: Option<nat>)
    ensures r.Some? ==> FirstMatch(users, q, r.value)
    ensures r.None? <==> NoMatch(users, q)
    decreases |users|
  {
    if users == [] then None
    else if Matches(users[0], q) then Some(0)
    else match FindOne(users[1..], q)
      case None => None
      case Some(i) => Some(i + 1)
  }

  /** `req.headers.authorization?.split(" ")[1]`. */
  function BearerToken(authorization: Option<string>): (token: Option<string>)
    ensures token.Some? <==> authorization.Some? && ' ' in authorization.value
    ensures token.Some? ==> ' ' !in token.value
  {
    match authorization
    case None => None
    case Some(header) =>
      var parts := Split(header, ' ');
      if |parts| >= 2 then Some(parts[1]) else None
  }

  /** The header `"<scheme> <token>"` yields the token when neither has a space. */
  lemma {:induction false} BearerTokenOf(scheme: string, token: string)
    requires ' ' !in scheme && ' ' !in token
    ensures BearerToken(Some(scheme + " " + token)) == Some(token)
  {
    SplitAfterFirst(scheme, token, ' ');
    SplitWithoutSeparator(token, ' ');
    assert scheme + " " + token == scheme + [' '] + token;
  }

  /** With further spaces after the scheme, the token is the text up to the second space. */
  lemma {:induction false} BearerTokenOfRest(scheme: string, rest: string)
    requires ' ' !in scheme
    ensures BearerToken(Some(scheme + " " + rest)) == Some(Split(rest, ' ')[0])
  {
    SplitAfterFirst(scheme, rest, ' ');
    assert scheme + " " + rest == scheme + [' '] + rest;
  }

  /** What `authenticateJWT` does: hand on the decoded claims, or answer itself. */
  datatype GateOutcome = Pass(token: string, user: Claims) | Refuse(reply: Reply)

  /** `authenticateJWT`: no token gives 401, then a blacklisted token 403, then a
      token that does not verify 403; only what remains reaches the handler. */
  function Authenticate(authorization: Option<string>, blacklist: set<string>, jwt: Jwt, now: int): (g: GateOutcome)
    ensures g.Pass? ==>
              && BearerToken(authorization) == Some(g.token) && g.token != []
              && g.token !in blacklist && jwt.verify(g.token, now) == Some(g.user)
    ensures g.Refuse? ==> g.reply.status == 401 || g.reply.status == 403
    ensures g == Refuse(Reply(401, Error(NoToken))) <==> Missing(BearerToken(authorization))
  {
    var token := BearerToken(authorization);
    if Missing(token) then Refuse(Reply(401, Error(NoToken)))
    else if token.value in blacklist then Refuse(Reply(403, Error(Invalidated)))
    else match jwt.verify(token.value, now)
      case None => Refuse(Reply(403, Error(InvalidOrExpired)))
      case Some(user) => Pass(token.value, user)
  }

  /** A header that is absent or has no space in it carries no token: 401. */
  lemma NoSpaceNoToken(authorization: Option<string>, blacklist: set<string>, jwt: Jwt, now: int)
    requires authorization.None? || ' ' !in authorization.value
    ensures Authenticate(authorization, blacklist, jwt, now) == Refuse(Reply(401, Error(NoToken)))
  {
  }

  /** The blacklist is consulted before the signature: a revoked token is refused
      with 403 even while it still verifies, and stays refused under any later
      clock and any larger blacklist. */
  lemma RevokedTokenRefused(authorization: Option<string>, revoked: set<string>, blacklist: set<string>, jwt: Jwt, later: int)
    requires BearerToken(authorization).Some? && BearerToken(authorization).value != []
    requires BearerToken(authorization).value in revoked && revoked <= blacklist
    ensures Authenticate(authorization, blacklist, jwt, later) == Refuse(Reply(403, Error(Invalidated)))
  {
  }

  /** Past the presence and blacklist checks, the signature check alone decides. */
  lemma VerifyDecides(authorization: Option<string>, blacklist: set<string>, jwt: Jwt, now: int)
    requires !Missing(BearerToken(authorization)) && BearerToken(authorization).value !in blacklist
    ensures var g := Authenticate(authorization, blacklist, jwt, now);
            match jwt.verify(BearerToken(authorization).value, now)
            case None => g == Refuse(Reply(403, Error(InvalidOrExpired)))
            case Some(user) => g == Pass(BearerToken(authorization).value, user)
  {
  }

  /** The life of an issued token presented as `"<scheme> <token>"`: refused once
      blacklisted; otherwise accepted with its claims for one hour from issue,
      and refused as expired from then on. */
  lemma {:induction false} IssuedTokenLifecycle(jwt: Jwt, c: Claims, issuedAt: int, scheme: string, blacklist: set<string>, now: int)
    requires JwtLaws(jwt) && ' ' !in scheme
    ensures var token := jwt.sign(c, issuedAt);
            Authenticate(Some(scheme + " " + token), blacklist, jwt, now) ==
              if token in blacklist then Refuse(Reply(403, Error(Invalidated)))
              else if now < issuedAt + TokenLifetime then Pass(token, c)
              else Refuse(Reply(403, Error(InvalidOrExpired)))
  {
    var token := jwt.sign(c, issuedAt);
    assert ' ' !in token && token != [];
    BearerTokenOf(scheme, token);
  }

  /** Every id is the position of its user, and no e-mail and no username is stored twice. */
  ghost predicate StoreInvariant(users: seq<User>) {
    && (forall i :: 0 <= i < |users| ==> users[i].id == i)
    && (forall i, j :: 0 <= i < j < |users| ==> users[i].email != users[j].email)
    && (forall i, j :: 0 <= i < j < |users| ==> users[i].username != users[j].username)
  }

  class Server {
    const bcrypt: Bcrypt
    const jwt: Jwt
    /** The users collection, in insertion order. */
    var users: seq<User>
    /** `tokenBlacklist`, the process-wide `Set` of revoked tokens. */
    var tokenBlacklist: set<string>

    ghost predicate Valid()
      reads this
    {
      BcryptLaws(bcrypt) && JwtLaws(jwt) && StoreInvariant(users)
    }

    constructor (bcrypt: Bcrypt, jwt: Jwt)
      requires BcryptLaws(bcrypt) && JwtLaws(jwt)
      ensures Valid()
      ensures this.bcrypt == bcrypt && this.jwt == jwt
      ensures users == [] && tokenBlacklist == {}
    {
      this.bcrypt := bcrypt;
      this.jwt := jwt;
      users := [];
      tokenBlacklist := {};
    }

    /** `POST /register`. A username already taken under another e-mail makes
        `save` fail on the unique index, which the handler answers with 500. */
    method Register(username: Option<string>, email: Option<string>, password: Option<string>, salt: Salt)
      returns (reply: Reply)
      requires Valid()
      modifies this`users
      ensures Valid()
      ensures Missing(username) || Missing(email) || Missing(password) ==>
                reply == Reply(400, Error(AllFieldsRequired)) && users == old(users)
      ensures !Missing(username) && !Missing(email) && !Missing(password) ==>
                if !NoMatch(old(users), EmailIs(email.value)) then
                  reply == Reply(400, Error(UserExists)) && users == old(users)
                else if !NoMatch(old(users), UsernameIs(username.value)) then
                  reply == Reply(500, Error(InternalError)) && users == old(users)
                else
                  && reply == Reply(201, Message(Registered))
                  && users == old(users) + [User(|old(users)|, username.value, email.value, bcrypt.hash(password.value, salt))]
    {
      if Missing(username) || Missing(email) || Missing(password) {
        return Reply(400, Error(AllFieldsRequired));
      }
      var existing := FindOne(users, EmailIs(email.value));
      if existing.Some? {
        return Reply(400, Error(UserExists));
      }
      var hashed := bcrypt.hash(password.value, salt);
      var taken := FindOne(users, UsernameIs(username.value));
      if taken.Some? {
        return Reply(500, Error(InternalError));
      }
      users := users + [User(|users|, username.value, email.value, hashed)];
      reply := Reply(201, Message(Registered));
    }

    /** `POST /login`; it reads the store and changes nothing. */
    function Login(usernameOrEmail: Option<string>, password: Option<string>, now: int): (reply: Reply)
      reads this
      ensures Missing(usernameOrEmail) || Missing(password) ==> reply == Reply(400, Error(AllFieldsRequired))
      ensures !Missing(usernameOrEmail) && !Missing(password) ==>
                var q := UsernameOrEmailIs(usernameOrEmail.value);
                && (NoMatch(users, q) ==> reply == Reply(400, Error(UnknownUser)))
                && forall i :: FirstMatch(users, q, i) ==>
                     reply == if bcrypt.compare(password.value, users[i].password)
                              then Reply(200, LoginSuccess(LoggedIn, jwt.sign(Claims(users[i].id, users[i].username), now)))
                              else Reply(400, Error(WrongPassword))
    {
      if Missing(usernameOrEmail) || Missing(password) then Reply(400, Error(AllFieldsRequired))
      else match FindOne(users, UsernameOrEmailIs(usernameOrEmail.value))
        case None => Reply(400, Error(UnknownUser))
        case Some(i) =>
          var user := users[i];
          if !bcrypt.compare(password.value, user.password) then Reply(400, Error(WrongPassword))
          else Reply(200, LoginSuccess(LoggedIn, jwt.sign(Claims(user.id, user.username), now)))
    }

    /** `POST /logout`, behind `authenticateJWT`. */
    method Logout(authorization: Option<string>, now: int) returns (reply: Reply)
      requires Valid()
      modifies this`tokenBlacklist
      ensures Valid()
      ensures old(tokenBlacklist) <= tokenBlacklist
      ensures match Authenticate(authorization, old(tokenBlacklist), jwt, now)
              case Refuse(r) => reply == r && tokenBlacklist == old(tokenBlacklist)
              case Pass(token, _) => reply == Reply(200, Message(LoggedOut)) && tokenBlacklist == old(tokenBlacklist) + {token}
    {
      match Authenticate(authorization, tokenBlacklist, jwt, now)
      case Refuse(r) =>
        reply := r;
      case Pass(_, _) =>
        var token := BearerToken(authorization);
        if !Missing(token) {
          tokenBlacklist := tokenBlacklist + {token.value};
          reply := Reply(200, Message(LoggedOut));
        } else {
          // the gate passed, so the header carried a token: the 400 answer is unreachable
          assert false;
          reply := Reply(400, Error(InvalidToken));
        }
    }

    /** `GET /protected`, behind `authenticateJWT`. */
    function Protected(authorization: Option<string>, now: int): (reply: Reply)
      reads this
      ensures reply.status == 200 <==> Authenticate(authorization, tokenBlacklist, jwt, now).Pass?
      ensures Authenticate(authorization, tokenBlacklist, jwt, now).Refuse? ==>
                reply == Authenticate(authorization, tokenBlacklist, jwt, now).reply
    {
      match Authenticate(authorization, tokenBlacklist, jwt, now)
      case Refuse(r) => r
      case Pass(_, user) => Reply(200, Message("Hello, " + user.username + ". Welcome to the protected route!"))
    }
  }

  /** A user stored last, whom no earlier user shadows, logs in with the password
      registered and receives a token for their own id and name. */
  lemma RegisteredUserLogsIn(s: Server, username: string, email: string, password: string, salt: Salt, now: int)
    requires s.Valid() && |s.users| > 0
    requires s.users[|s.users| - 1] == User(|s.users| - 1, username, email, s.bcrypt.hash(password, salt))
    requires NoMatch(s.users[..|s.users| - 1], UsernameOrEmailIs(username))
    requires username != [] && password != []
    ensures s.Login(Some(username), Some(password), now)
              == Reply(200, LoginSuccess(LoggedIn, s.jwt.sign(Claims(|s.users| - 1, username), now)))
  {
    var n := |s.users| - 1;
    forall j | 0 <= j < n ensures !Matches(s.users[j], UsernameOrEmailIs(username)) {
      assert s.users[j] == s.users[..n][j];
    }
    assert FirstMatch(s.users, UsernameOrEmailIs(username), n);
  }

  /** The first half of the end-to-end run: a fresh server registers alice and
      logs her in, and the reply carries her token. */
  method SignUpAndLogIn(bcrypt: Bcrypt, jwt: Jwt, salt: Salt, now: int) returns (server: Server, statuses: seq<int>, token: string)
    requires BcryptLaws(bcrypt) && JwtLaws(jwt)
    ensures fresh(server) && server.Valid() && server.bcrypt == bcrypt && server.jwt == jwt
    ensures server.users == [User(0, "alice", "a@x.com", bcrypt.hash("secret1", salt))]
    ensures server.tokenBlacklist == {}
    ensures statuses == [201, 200] && token == jwt.sign(Claims(0, "alice"), now)
  {
    server := new Server(bcrypt, jwt);
    assert NoMatch(server.users, EmailIs("a@x.com")) && NoMatch(server.users, UsernameIs("alice"));
    var registered := server.Register(Some("alice"), Some("a@x.com"), Some("secret1"), salt);
    assert NoMatch(server.users[..0], UsernameOrEmailIs("alice"));
    RegisteredUserLogsIn(server, "alice", "a@x.com", "secret1", salt, now);
    var login := server.Login(Some("alice"), Some("secret1"), now);
    statuses := [registered.status, login.status];
    token := login.body.token;
  }

  /** The end-to-end run: register, log in, reach the protected route, log out,
      be refused with the same token, and fail to register the e-mail again. */
  method EndToEnd(bcrypt: Bcrypt, jwt: Jwt, salt: Salt, now: int) returns (statuses: seq<int>)
    requires BcryptLaws(bcrypt) && JwtLaws(jwt)
    ensures statuses == [201, 200, 200, 200, 403, 400]
  {
    var server, first, token := SignUpAndLogIn(bcrypt, jwt, salt, now);
    var header := Some("Bearer" + " " + token);
    IssuedTokenLifecycle(jwt, Claims(0, "alice"), now, "Bearer", {}, now);
    var before := server.Protected(header, now);
    var logout := server.Logout(header, now);
    IssuedTokenLifecycle(jwt, Claims(0, "alice"), now, "Bearer", {token}, now);
    var after := server.Protected(header, now);
    assert server.users[0].email == "a@x.com";
    var again := server.Register(Some("bob"), Some("a@x.com"), Some("secret2"), salt);
    statuses := first + [before.status, logout.status, after.status, again.status];
  }
}
