/** `services/api/src/auth/auth_service.py`: user accounts, password checking, login with
    JWT access tokens, the token table used for revocation, and the admin guard. PBKDF2,
    SHA-256 and JWT encoding are arbitrary functions given to the service; the clock is a
    parameter (seconds). */
module AuthService {
  import opened Common
  import Json

  /** A value, or the status code of the `HTTPException` raised instead. */
  datatype Result<T> = Ok(value: T) | Err(status: int)

  const JwtExpirationHours: nat := 24
  /** `expires_in` of a token response, in seconds. */
  const ExpiresIn: nat := JwtExpirationHours * 3600

  /** A `users` row (`created_at` is not modelled). */
  datatype UserRow = UserRow(id: nat, username: string, email: string, passwordHash: string, salt: string,
                             role: string, isActive: bool, lastLogin: Option<int>, loginCount: nat)

  /** The `User` model the service returns. */
  datatype User = User(id: nat, username: string, email: string, role: string, isActive: bool)

  /** A `tokens` row. */
  datatype TokenRow = TokenRow(id: nat, userId: nat, tokenHash: string, expiresAt: int, isRevoked: bool)

  datatype UserCreate = UserCreate(username: string, email: string, password: string, role: string)

  /** The JWT payload `create_access_token` signs. */
  datatype Payload = Payload(sub: string, username: string, role: string, exp: int, iat: int, kind: string)

  datatype TokenResponse = TokenResponse(accessToken: string, tokenType: string, expiresIn: nat, userId: nat,
                                         username: string, role: string)

  function UserOf(row: UserRow): User
  {
    User(row.id, row.username, row.email, row.role, row.isActive)
  }

  // ---------------------------------------------------------------------------
  // Passwords

  /** `verify_password`: hash the candidate with the stored salt and compare. */
  predicate VerifyPassword(hash: (string, string) -> string, password: string, passwordHash: string, salt: string)
  {
    hash(password, salt) == passwordHash
  }

  // ---------------------------------------------------------------------------
  // The users table

  /** `SELECT id FROM users WHERE username = ? OR email = ?` finds a row. */
  predicate Taken(users: seq<UserRow>, username: string, email: string)
  {
    exists i :: 0 <= i < |users| && (users[i].username == username || users[i].email == email)
  }

  predicate HasUsername(users: seq<UserRow>, username: string)
  {
    exists i :: 0 <= i < |users| && users[i].username == username
  }

  /** Ids count up from 1 (AUTOINCREMENT, and no row is ever deleted); usernames and
      emails are UNIQUE. */
  predicate UsersValid(users: seq<UserRow>)
  {
    && (forall i :: 0 <= i < |users| ==> users[i].id == i + 1)
    && (forall i, j :: 0 <= i < j < |users| ==> users[i].username != users[j].username && users[i].email != users[j].email)
  }

  /** The row an INSERT adds: the next id, the salted hash, active, never logged in. */
  function NewUserRow(users: seq<UserRow>, username: string, email: string, password: string, salt: string,
                      role: string, hash: (string, string) -> string): UserRow
  {
    UserRow(|users| + 1, username, email, hash(password, salt), salt, role, true, None, 0)
  }

  /** `create_user`: 400 when the username or the email already exists, otherwise the
      table with the new row. */
  function CreateUserResult(users: seq<UserRow>, data: UserCreate, salt: string, hash: (string, string) -> string)
    : (r: Result<seq<UserRow>>)
    ensures r.Err? <==> Taken(users, data.username, data.email)
    ensures r.Err? ==> r.status == 400
    ensures r.Ok? ==> |r.value| == |users| + 1 && r.value[..|users|] == users
  {
    if Taken(users, data.username, data.email) then Err(400)
    else Ok(users + [NewUserRow(users, data.username, data.email, data.password, salt, data.role, hash)])
  }

  /** Adding a row whose username and email are not taken keeps the table valid. */
  lemma InsertKeepsValid(users: seq<UserRow>, username: string, email: string, password: string, salt: string,
                         role: string, hash: (string, string) -> string)
    requires UsersValid(users) && !Taken(users, username, email)
    ensures UsersValid(users + [NewUserRow(users, username, email, password, salt, role, hash)])
  {
    var u := users + [NewUserRow(users, username, email, password, salt, role, hash)];
    forall i, j | 0 <= i < j < |u| ensures u[i].username != u[j].username && u[i].email != u[j].email {
      if j == |users| {
        assert !(users[i].username == username || users[i].email == email);
      }
    }
  }

  /** The index of the row `authenticate_user` reads: username matches and the account is
      active; -1 when there is none. */
  function ActiveIndex(users: seq<UserRow>, username: string): (i: int)
    ensures -1 <= i < |users|
    ensures i >= 0 ==> users[i].username == username && users[i].isActive
    ensures i < 0 ==> forall j :: 0 <= j < |users| ==> !(users[j].username == username && users[j].isActive)
    decreases |users|
  {
    if users == [] then -1
    else
      var k := ActiveIndex(users[..|users| - 1], username);
      if k >= 0 then k
      else if users[|users| - 1].username == username && users[|users| - 1].isActive then |users| - 1
      else -1
  }

  /** `authenticate_user` at clock reading `now`: the user and the updated table, or None
      with the table unchanged. */
  function Authenticate(users: seq<UserRow>, username: string, password: string,
                        hash: (string, string) -> string, now: int): (r: (Option<User>, seq<UserRow>))
    ensures r.0.None? <==> ActiveIndex(users, username) < 0
                           || !VerifyPassword(hash, password, users[ActiveIndex(users, username)].passwordHash,
                                              users[ActiveIndex(users, username)].salt)
    ensures r.0.None? ==> r.1 == users
    ensures r.0.Some? ==> var i := ActiveIndex(users, username);
      && r.0.value == UserOf(users[i])
      && |r.1| == |users|
      && r.1[i].loginCount == users[i].loginCount + 1 && r.1[i].lastLogin == Some(now)
      && (forall j :: 0 <= j < |users| && j != i ==> r.1[j] == users[j])
  {
    var i := ActiveIndex(users, username);
    if i < 0 then (None, users)
    else if !VerifyPassword(hash, password, users[i].passwordHash, users[i].salt) then (None, users)
    else (Some(UserOf(users[i])), users[i := users[i].(lastLogin := Some(now), loginCount := users[i].loginCount + 1)])
  }

  /** A login updates only the login fields: usernames, emails and ids stay, so the table
      stays valid. */
  lemma AuthenticateKeepsValid(users: seq<UserRow>, username: string, password: string,
                               hash: (string, string) -> string, now: int)
    requires UsersValid(users)
    ensures UsersValid(Authenticate(users, username, password, hash, now).1)
  {
  }

  /** A user just created can log in with the password it was created with, and that
      login is its first. */
  lemma CreateThenAuthenticate(users: seq<UserRow>, data: UserCreate, salt: string,
                               hash: (string, string) -> string, now: int)
    requires UsersValid(users) && !Taken(users, data.username, data.email)
    ensures var u := CreateUserResult(users, data, salt, hash).value;
      var r := Authenticate(u, data.username, data.password, hash, now);
      && r.0 == Some(User(|users| + 1, data.username, data.email, data.role, true))
      && r.1[|users|].loginCount == 1
  {
    var u := CreateUserResult(users, data, salt, hash).value;
    assert u[..|users|] == users;
    assert ActiveIndex(u[..|u| - 1], data.username) < 0;
  }

  // ---------------------------------------------------------------------------
  // Default accounts

  const AdminEmail: string := "admin@ia-continu.local"
  const TestEmail: string := "test@ia-continu.local"

  /** `create_default_admin` with the two generated salts: nothing when a row named
      "admin" exists; otherwise "admin" (role admin) then "testuser" (role user), or None
      when either INSERT breaks a UNIQUE column — the error propagates before the commit,
      so no row is kept. */
  function DefaultUsers(users: seq<UserRow>, adminSalt: string, testSalt: string, hash: (string, string) -> string)
    : (r: Option<seq<UserRow>>)
    ensures HasUsername(users, "admin") ==> r == Some(users)
    ensures !HasUsername(users, "admin") && r.Some? ==> |r.value| == |users| + 2 && r.value[..|users|] == users
  {
    if HasUsername(users, "admin") then Some(users)
    else
      var u1 := users + [NewUserRow(users, "admin", AdminEmail, "admin123", adminSalt, "admin", hash)];
      if Taken(users, "admin", AdminEmail) || Taken(u1, "testuser", TestEmail) then None
      else
        var u2 := u1 + [NewUserRow(u1, "testuser", TestEmail, "test123", testSalt, "user", hash)];
        assert u2[..|users|] == users;
        Some(u2)
  }

  /** Seeding twice is the same as seeding once, whatever salts the second call draws. */
  lemma DefaultUsersIdempotent(users: seq<UserRow>, s1: string, s2: string, s3: string, s4: string,
                               hash: (string, string) -> string)
    requires DefaultUsers(users, s1, s2, hash).Some?
    ensures var u := DefaultUsers(users, s1, s2, hash).value; DefaultUsers(u, s3, s4, hash) == Some(u)
  {
    var u := DefaultUsers(users, s1, s2, hash).value;
    if !HasUsername(users, "admin") {
      assert u[|users|].username == "admin";
    }
  }

  /** After seeding a table without an admin, "admin"/"admin123" authenticates as the
      admin account and "testuser"/"test123" as a user. */
  lemma DefaultAccountsLogIn(users: seq<UserRow>, adminSalt: string, testSalt: string,
                             hash: (string, string) -> string, now: int)
    requires !HasUsername(users, "admin") && !HasUsername(users, "testuser")
    requires DefaultUsers(users, adminSalt, testSalt, hash).Some?
    ensures var u := DefaultUsers(users, adminSalt, testSalt, hash).value;
      && Authenticate(u, "admin", "admin123", hash, now).0 == Some(User(|users| + 1, "admin", AdminEmail, "admin", true))
      && Authenticate(u, "testuser", "test123", hash, now).0 == Some(User(|users| + 2, "testuser", TestEmail, "user", true))
  {
    var u := DefaultUsers(users, adminSalt, testSalt, hash).value;
    var u1 := u[..|users| + 1];
    assert u1[..|users|] == users;
    assert u[..|u| - 1] == u1;
    assert ActiveIndex(users, "admin") < 0;
    assert ActiveIndex(u1, "admin") == |users|;
    assert ActiveIndex(u1, "testuser") < 0;
  }

  /** Seeding keeps the table valid. */
  lemma DefaultUsersKeepValid(users: seq<UserRow>, adminSalt: string, testSalt: string, hash: (string, string) -> string)
    requires UsersValid(users) && DefaultUsers(users, adminSalt, testSalt, hash).Some?
    ensures UsersValid(DefaultUsers(users, adminSalt, testSalt, hash).value)
  {
    if !HasUsername(users, "admin") {
      InsertKeepsValid(users, "admin", AdminEmail, "admin123", adminSalt, "admin", hash);
      var u1 := users + [NewUserRow(users, "admin", AdminEmail, "admin123", adminSalt, "admin", hash)];
      InsertKeepsValid(u1, "testuser", TestEmail, "test123", testSalt, "user", hash);
    }
  }

  // ---------------------------------------------------------------------------
  // Tokens

  /** `is_token_revoked` at clock reading `now`: the flag of the first row with this token
      hash that has not expired, and false when there is none. */
  function RevokedFlag(tokens: seq<TokenRow>, tokenHash: string, now: int): (r: bool)
    ensures r ==> exists i :: 0 <= i < |tokens| && tokens[i].tokenHash == tokenHash && tokens[i].expiresAt > now
                              && tokens[i].isRevoked
    ensures (forall i :: 0 <= i < |tokens| ==> !(tokens[i].tokenHash == tokenHash && tokens[i].expiresAt > now)) ==> !r
    decreases |tokens|
  {
    if tokens == [] then false
    else if tokens[0].tokenHash == tokenHash && tokens[0].expiresAt > now then tokens[0].isRevoked
    else
      var r := RevokedFlag(tokens[1..], tokenHash, now);
      assert r ==> exists i :: 1 <= i < |tokens| && tokens[i].tokenHash == tokenHash && tokens[i].expiresAt > now
                                && tokens[i].isRevoked by {
        if r {
          var i :| 0 <= i < |tokens[1..]| && tokens[1..][i].tokenHash == tokenHash && tokens[1..][i].expiresAt > now
                   && tokens[1..][i].isRevoked;
          assert tokens[i + 1] == tokens[1..][i];
        }
      }
      r
  }

  /** Nothing in the service sets `is_revoked`, so no token is ever reported revoked. */
  predicate NoneRevoked(tokens: seq<TokenRow>)
  {
    forall i :: 0 <= i < |tokens| ==> !tokens[i].isRevoked
  }

  /** `get_user_by_id`: the active row with this id. */
  function UserById(users: seq<UserRow>, id: int): (r: Option<User>)
    ensures r.Some? ==> exists i :: 0 <= i < |users| && users[i].id == id && users[i].isActive && r.value == UserOf(users[i])
    ensures r.None? ==> forall i :: 0 <= i < |users| ==> !(users[i].id == id && users[i].isActive)
    decreases |users|
  {
    if users == [] then None
    else if users[0].id == id && users[0].isActive then Some(UserOf(users[0]))
    else
      var r := UserById(users[1..], id);
      assert forall i :: 1 <= i < |users| ==> users[i] == users[1..][i - 1];
      r
  }

  /** `int(payload.get("sub"))` on a subject of decimal digits, optionally signed with a
      minus; None where `int()` raises. */
  function SubjectId(sub: string): (r: Option<int>)
    ensures r.Some? ==> Json.ParseInt(sub) == Some((r.value, []))
    ensures r.None? ==> Json.ParseInt(sub).None? || Json.ParseInt(sub).value.1 != []
  {
    match Json.ParseInt(sub)
    case None => None
    case Some((i, rest)) => if rest == [] then Some(i) else None
  }

  /** The subject `str(user.id)` a token carries reads back as that id. */
  lemma SubjectRoundTrip(id: nat)
    ensures SubjectId(NatToString(id)) == Some(id)
  {
    Json.IntRoundTrip(id, []);
    assert IntToString(id) + [] == NatToString(id);
  }

  /** `verify_token` at clock reading `now`: `payload` is what `jwt.decode` yields, None
      when it raises DecodeError or InvalidSignatureError. An expired payload
      (ExpiredSignatureError), a subject `int()` cannot read or reads as zero, a revoked
      token and an unknown or inactive user give None. */
  function VerifyToken(users: seq<UserRow>, tokens: seq<TokenRow>, tokenHash: string, payload: Option<Payload>, now: int)
    : (r: Option<User>)
    ensures r.Some? ==> && payload.Some? && now < payload.value.exp
                        && SubjectId(payload.value.sub) == Some(r.value.id) && r.value.id != 0 && r.value.isActive
                        && !RevokedFlag(tokens, tokenHash, now)
    ensures payload.Some? && payload.value.exp <= now ==> r.None?
    ensures (&& payload.Some? && now < payload.value.exp && SubjectId(payload.value.sub).Some?
             && var id := SubjectId(payload.value.sub).value;
             && 0 < id <= |users| && users[id - 1].isActive && UsersValid(users) && NoneRevoked(tokens))
            ==> r == Some(UserOf(users[SubjectId(payload.value.sub).value - 1]))
  {
    if payload.None? || payload.value.exp <= now then None
    else
      var sub := SubjectId(payload.value.sub);
      if sub.None? || sub.value == 0 then None
      else if RevokedFlag(tokens, tokenHash, now) then None
      else UserById(users, sub.value)
  }

  /** `get_current_user`: 401 when the token does not verify. */
  function CurrentUser(verified: Option<User>): (r: Result<User>)
    ensures r.Err? <==> verified.None?
    ensures r.Err? ==> r.status == 401
    ensures r.Ok? ==> r.value == verified.value
  {
    if verified.None? then Err(401) else Ok(verified.value)
  }

  /** `get_admin_user`: 401 without a valid user, 403 for any role other than "admin". */
  function AdminUser(verified: Option<User>): (r: Result<User>)
    ensures r.Ok? <==> verified.Some? && verified.value.role == "admin"
    ensures verified.None? ==> r == Err(401)
    ensures verified.Some? && verified.value.role != "admin" ==> r == Err(403)
    ensures r.Ok? ==> r.value == verified.value
  {
    var c := CurrentUser(verified);
    if c.Err? then c
    else if c.value.role != "admin" then Err(403)
    else c
  }

  // ---------------------------------------------------------------------------
  // Login

  /** The payload signed for `user` at clock reading `now`. */
  function AccessPayload(user: User, now: int): (p: Payload)
    ensures p.exp - p.iat == ExpiresIn
  {
    Payload(NatToString(user.id), user.username, user.role, now + ExpiresIn, now, "access")
  }

  /** The outcome of `login`: the response (or 401) and both tables afterwards. */
  datatype LoginOutcome = LoginOutcome(response: Result<TokenResponse>, users: seq<UserRow>, tokens: seq<TokenRow>)

  function LoginResult(users: seq<UserRow>, tokens: seq<TokenRow>, username: string, password: string,
                       hash: (string, string) -> string, sha256: string -> string, jwtEncode: Payload -> string,
                       now: int): (r: LoginOutcome)
    ensures r.response.Err? <==> Authenticate(users, username, password, hash, now).0.None?
    ensures r.response.Err? ==> r.response.status == 401 && r.users == users && r.tokens == tokens
    ensures r.response.Ok? ==> var t := r.response.value;
      && t.tokenType == "bearer" && t.expiresIn == 86400 && t.username == username
      && r.tokens == tokens + [TokenRow(|tokens| + 1, t.userId, sha256(t.accessToken), now + 86400, false)]
  {
    var (user, users') := Authenticate(users, username, password, hash, now);
    if user.None? then LoginOutcome(Err(401), users, tokens)
    else
      var u := user.value;
      var token := jwtEncode(AccessPayload(u, now));
      LoginOutcome(Ok(TokenResponse(token, "bearer", ExpiresIn, u.id, u.username, u.role)), users',
                   tokens + [TokenRow(|tokens| + 1, u.id, sha256(token), now + ExpiresIn, false)])
  }

  /** A token just issued by a login is not reported revoked while it is unexpired; read
      back through a `decode` that returns what was signed, it verifies to the user who
      logged in until 24 hours have passed, and to nobody from then on. */
  lemma LoginTokenVerifies(users: seq<UserRow>, tokens: seq<TokenRow>, username: string, password: string,
                           hash: (string, string) -> string, sha256: string -> string, jwtEncode: Payload -> string,
                           decode: string -> Option<Payload>, now: int, later: int)
    requires UsersValid(users) && NoneRevoked(tokens)
    requires forall p :: decode(jwtEncode(p)) == Some(p)
    requires LoginResult(users, tokens, username, password, hash, sha256, jwtEncode, now).response.Ok?
    ensures var r := LoginResult(users, tokens, username, password, hash, sha256, jwtEncode, now);
      var t := r.response.value;
      var v := VerifyToken(r.users, r.tokens, sha256(t.accessToken), decode(t.accessToken), later);
      && !RevokedFlag(r.tokens, sha256(t.accessToken), later)
      && (later < now + ExpiresIn ==> v.Some? && v.value.id == t.userId && v.value.username == username)
      && (later >= now + ExpiresIn ==> v.None?)
  {
    var r := LoginResult(users, tokens, username, password, hash, sha256, jwtEncode, now);
    var i := ActiveIndex(users, username);
    var u := UserOf(users[i]);
    AuthenticateKeepsValid(users, username, password, hash, now);
    assert NoneRevoked(r.tokens);
    assert r.users[i].id == i + 1;
    assert decode(jwtEncode(AccessPayload(u, now))) == Some(AccessPayload(u, now));
    SubjectRoundTrip(u.id);
  }

  // ---------------------------------------------------------------------------
  // The service

  class Service {
    const hashPassword: (string, string) -> string
    const sha256: string -> string
    const jwtEncode: Payload -> string
    const jwtDecode: string -> Option<Payload>
    var users: seq<UserRow>
    var tokens: seq<TokenRow>

    ghost predicate Valid()
      reads this
    {
      UsersValid(users) && NoneRevoked(tokens)
    }

    /** `AuthService(db_path)` on a new database: the tables are created and
        `create_default_admin` seeds "admin" and "testuser" with the two drawn salts. */
    constructor (hashPassword: (string, string) -> string, sha256: string -> string, jwtEncode: Payload -> string,
                 jwtDecode: string -> Option<Payload>, adminSalt: string, testSalt: string)
      ensures Valid()
      ensures this.hashPassword == hashPassword && this.sha256 == sha256
      ensures this.jwtEncode == jwtEncode && this.jwtDecode == jwtDecode
      ensures Some(users) == DefaultUsers([], adminSalt, testSalt, hashPassword) && tokens == []
    {
      this.hashPassword, this.sha256, this.jwtEncode, this.jwtDecode := hashPassword, sha256, jwtEncode, jwtDecode;
      var u1: seq<UserRow> := [] + [NewUserRow([], "admin", AdminEmail, "admin123", adminSalt, "admin", hashPassword)];
      assert u1[0].username != "testuser" && u1[0].email != TestEmail;
      assert !Taken(u1, "testuser", TestEmail);
      DefaultUsersKeepValid([], adminSalt, testSalt, hashPassword);
      users := DefaultUsers([], adminSalt, testSalt, hashPassword).value;
      tokens := [];
    }

    /** `create_default_admin` with two freshly drawn salts: Err(0) stands for the
        IntegrityError raised when a default username or email is already taken. */
    method CreateDefaultAdmin(adminSalt: string, testSalt: string) returns (r: Result<()>)
      requires Valid()
      modifies this`users
      ensures Valid()
      ensures r.Ok? <==> DefaultUsers(old(users), adminSalt, testSalt, hashPassword).Some?
      ensures r.Ok? ==> Some(users) == DefaultUsers(old(users), adminSalt, testSalt, hashPassword)
      ensures r.Err? ==> users == old(users)
    {
      var d := DefaultUsers(users, adminSalt, testSalt, hashPassword);
      if d.None? {
        return Err(0);
      }
      DefaultUsersKeepValid(users, adminSalt, testSalt, hashPassword);
      users := d.value;
      return Ok(());
    }

    /** `create_user` with a freshly drawn salt. */
    method CreateUser(data: UserCreate, salt: string) returns (r: Result<User>)
      requires Valid()
      modifies this`users
      ensures Valid()
      ensures r.Err? <==> Taken(old(users), data.username, data.email)
      ensures r.Err? ==> r.status == 400 && users == old(users)
      ensures r.Ok? ==> Ok(users) == CreateUserResult(old(users), data, salt, hashPassword)
                        && r.value == User(|old(users)| + 1, data.username, data.email, data.role, true)
    {
      if Taken(users, data.username, data.email) {
        return Err(400);
      }
      InsertKeepsValid(users, data.username, data.email, data.password, salt, data.role, hashPassword);
      var row := NewUserRow(users, data.username, data.email, data.password, salt, data.role, hashPassword);
      users := users + [row];
      return Ok(UserOf(row));
    }

    /** `authenticate_user` at clock reading `now`. */
    method AuthenticateUser(username: string, password: string, now: int) returns (user: Option<User>)
      requires Valid()
      modifies this`users
      ensures Valid()
      ensures (user, users) == Authenticate(old(users), username, password, hashPassword, now)
    {
      AuthenticateKeepsValid(users, username, password, hashPassword, now);
      var i := ActiveIndex(users, username);
      if i < 0 || !VerifyPassword(hashPassword, password, users[i].passwordHash, users[i].salt) {
        return None;
      }
      users := users[i := users[i].(lastLogin := Some(now), loginCount := users[i].loginCount + 1)];
      return Some(UserOf(users[i]));
    }

    /** `login` at clock reading `now`: authenticate, sign a token, store its hash. */
    method Login(username: string, password: string, now: int) returns (r: Result<TokenResponse>)
      requires Valid()
      modifies this`users, this`tokens
      ensures Valid()
      ensures LoginOutcome(r, users, tokens)
              == LoginResult(old(users), old(tokens), username, password, hashPassword, sha256, jwtEncode, now)
    {
      var user := AuthenticateUser(username, password, now);
      if user.None? {
        return Err(401);
      }
      var u := user.value;
      var token := jwtEncode(AccessPayload(u, now));
      tokens := tokens + [TokenRow(|tokens| + 1, u.id, sha256(token), now + ExpiresIn, false)];
      return Ok(TokenResponse(token, "bearer", ExpiresIn, u.id, u.username, u.role));
    }

    /** `is_token_revoked` at clock reading `now`: a revoked answer comes from an unexpired
        row of this token, and since nothing sets `is_revoked` the answer is always falsy. */
    function IsTokenRevoked(token: string, now: int): (r: bool)
      reads this
      ensures r ==> exists i :: 0 <= i < |tokens| && tokens[i].tokenHash == sha256(token) && tokens[i].expiresAt > now
      ensures Valid() ==> !r
    {
      RevokedFlag(tokens, sha256(token), now)
    }

    /** `verify_token` at clock reading `now`, decoding with the service's key. */
    function VerifyAccessToken(token: string, now: int): (r: Option<User>)
      reads this
      ensures r.Some? ==> && jwtDecode(token).Some? && now < jwtDecode(token).value.exp
                          && SubjectId(jwtDecode(token).value.sub) == Some(r.value.id)
                          && !IsTokenRevoked(token, now)
      ensures r.Some? && Valid() ==> 0 < r.value.id <= |users| && r.value == UserOf(users[r.value.id - 1])
      ensures jwtDecode(token).None? || jwtDecode(token).value.exp <= now ==> r.None?
    {
      VerifyToken(users, tokens, sha256(token), jwtDecode(token), now)
    }
  }
}
