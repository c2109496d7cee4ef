/**
 * The account endpoints of `backend/app/routes.py`: the `get_current_user` dependency, `/signup`,
 * `/login`, `/request-password-reset` and `/reset-password`.
 *
 * JWT signing is abstract: `/login` returns the claims it would sign, and `decode_token` is a
 * parameter giving a payload or None. Password hashes and reset tokens are produced outside the
 * model (bcrypt, `secrets.token_urlsafe`) and passed in; `verify_password` is a parameter.
 */
module AuthRoutes {
  import opened Wrappers
  import opened Utils
  import opened Http
  import opened Models

  const BEARER: string := "Bearer "

  /** Some row has this email. */
  predicate Registered(users: seq<User>, email: string) {
    exists j :: 0 <= j < |users| && users[j].email == email
  }

  /** The first space-separated field of `s`. */
  function TakeUntilSpace(s: string): (r: string)
    ensures |r| <= |s| && r == s[..|r|]
    ensures forall i :: 0 <= i < |r| ==> r[i] != ' '
    ensures |r| < |s| ==> s[|r|] == ' '
  {
    if |s| == 0 || s[0] == ' ' then "" else [s[0]] + TakeUntilSpace(s[1..])
  }

  /** `auth_header.split(" ")[1]` for a header starting with "Bearer " (routes.py:134): the text
      after the first space, up to the next space. */
  function BearerToken(header: string): (token: string)
    requires HasPrefix(header, BEARER)
    ensures forall i :: 0 <= i < |token| ==> token[i] != ' '
    ensures |BEARER| + |token| <= |header| && token == header[|BEARER|..|BEARER| + |token|]
    ensures |BEARER| + |token| < |header| ==> header[|BEARER| + |token|] == ' '
  {
    TakeUntilSpace(header[|BEARER|..])
  }

  /** A token without spaces survives the round trip through the header. */
  lemma BearerTokenRoundTrip(token: string)
    requires forall i :: 0 <= i < |token| ==> token[i] != ' '
    ensures HasPrefix(BEARER + token, BEARER)
    ensures BearerToken(BEARER + token) == token
  {
    var h := BEARER + token;
    assert h[..|BEARER|] == BEARER;
    assert h[|BEARER|..] == token;
    assert TakeUntilSpace(token) == token[..|TakeUntilSpace(token)|];
  }

  /** Whatever follows, the token never contains a space and is a prefix of the rest. */
  lemma BearerTokenShape(header: string)
    requires HasPrefix(header, BEARER)
    ensures forall i :: 0 <= i < |BearerToken(header)| ==> BearerToken(header)[i] != ' '
    ensures HasPrefix(header[|BEARER|..], BearerToken(header))
  {
  }

  /** The email the Authorization header claims: "Bearer " present, the token decodes, and its
      payload has a non-empty "sub" (routes.py:130-144). */
  function Subject(header: Option<string>, decode: string -> Option<map<string, string>>)
    : (email: Option<string>)
    ensures email.Some? ==> header.Some? && HasPrefix(header.value, BEARER)
    ensures email.Some? ==> email.value != ""
    ensures email.Some? ==>
      var payload := decode(BearerToken(header.value));
      payload.Some? && "sub" in payload.value && payload.value["sub"] == email.value
    ensures header.None? ==> email.None?
  {
    if header.None? || !HasPrefix(header.value, BEARER) then None
    else
      var payload := decode(BearerToken(header.value));
      if payload.None? || "sub" !in payload.value || payload.value["sub"] == "" then None
      else Some(payload.value["sub"])
  }

  /**
   * `get_current_user`: the user whose email the token's "sub" names; every failure is a 401,
   * modelled as None.
   */
  function CurrentUser(users: seq<User>, header: Option<string>,
                       decode: string -> Option<map<string, string>>): (r: Option<User>)
    ensures r.Some? <==> Subject(header, decode).Some? && Registered(users, Subject(header, decode).value)
    ensures r.Some? ==> r.value in users && r.value.email == Subject(header, decode).value
  {
    match Subject(header, decode)
    case None => None
    case Some(email) =>
      match FindUserByEmail(users, email)
      case None => None
      case Some(k) => Some(users[k])
  }

  /** A well-formed header carrying a token whose payload names a registered email
      authenticates exactly that user. */
  lemma CurrentUserFromToken(users: seq<User>, nextId: nat, token: string, email: string,
                             decode: string -> Option<map<string, string>>, j: nat)
    requires UsersValid(users, nextId)
    requires forall i :: 0 <= i < |token| ==> token[i] != ' '
    requires decode(token) == Some(map["sub" := email])
    requires email != "" && j < |users| && users[j].email == email
    ensures CurrentUser(users, Some(BEARER + token), decode) == Some(users[j])
  {
    BearerTokenRoundTrip(token);
    UniqueEmailLookup(users, nextId, email);
  }

  /** `/signup` (routes.py:181-197): 400 for an email already registered; otherwise one new row
      with role "user", not approved. */
  method Signup(db: Database, email: string, hashedPassword: string) returns (status: int)
    requires db.Valid()
    modifies db
    ensures db.Valid()
    ensures status == BAD_REQUEST <==> Registered(old(db.users), email)
    ensures status == OK || status == BAD_REQUEST
    ensures status == BAD_REQUEST ==> db.Snap() == old(db.Snap())
    ensures status == OK ==> db.Snap() == old(db.Snap()).(
      users := old(db.users) + [User(old(db.nextUserId), email, hashedPassword, ROLE_USER, false, None)],
      nextUserId := old(db.nextUserId) + 1)
    ensures AdminCount(db.users) == AdminCount(old(db.users))
  {
    if FindUserByEmail(db.users, email).Some? {
      return BAD_REQUEST;
    }
    AdminCountAppend(db.users, NewUser(db.nextUserId, email, hashedPassword));
    db.users := db.users + [NewUser(db.nextUserId, email, hashedPassword)];
    db.nextUserId := db.nextUserId + 1;
    status := OK;
  }

  /** The payload `/login` signs: `{"sub": user.email, "role": user.role}`. */
  datatype Claims = Claims(sub: string, role: string)

  datatype LoginResult = LoginFailed(status: int) | LoggedIn(claims: Claims)

  /** `/login` (routes.py:224-237): 401 for an unknown email or a wrong password, then 403 for an
      unapproved account, else the claims of the user found. */
  function Login(users: seq<User>, username: string, password: string,
                 verify: (string, string) -> bool): (r: LoginResult)
    ensures r.LoginFailed? ==> r.status == UNAUTHORIZED || r.status == FORBIDDEN
    ensures r.LoggedIn? ==>
      (exists j :: 0 <= j < |users| && users[j].email == username && users[j].isApproved
         && verify(password, users[j].hashedPassword) && r.claims == Claims(username, users[j].role))
  {
    match FindUserByEmail(users, username)
    case None => LoginFailed(UNAUTHORIZED)
    case Some(k) =>
      if !verify(password, users[k].hashedPassword) then LoginFailed(UNAUTHORIZED)
      else if !users[k].isApproved then LoginFailed(FORBIDDEN)
      else LoggedIn(Claims(users[k].email, users[k].role))
  }

  /** With unique emails, the outcome of a login is decided by the one row with that email. */
  lemma LoginOutcomes(users: seq<User>, nextId: nat, username: string, password: string,
                      verify: (string, string) -> bool)
    requires UsersValid(users, nextId)
    ensures Login(users, username, password, verify) == LoginFailed(UNAUTHORIZED) <==>
      forall j :: 0 <= j < |users| && users[j].email == username ==> !verify(password, users[j].hashedPassword)
    ensures Login(users, username, password, verify) == LoginFailed(FORBIDDEN) <==>
      exists j :: 0 <= j < |users| && users[j].email == username
        && verify(password, users[j].hashedPassword) && !users[j].isApproved
    ensures Login(users, username, password, verify).LoggedIn? <==>
      exists j :: 0 <= j < |users| && users[j].email == username
        && verify(password, users[j].hashedPassword) && users[j].isApproved
  {
    UniqueEmailLookup(users, nextId, username);
  }

  /** `/request-password-reset` (routes.py:715-723): store the new token on the user with that
      email, if any; the answer is the same either way. */
  method RequestPasswordReset(db: Database, email: string, token: string) returns (status: int)
    requires db.Valid()
    modifies db
    ensures db.Valid()
    ensures status == OK
    ensures db.Snap() == old(db.Snap()).(users := db.users)
    ensures !Registered(old(db.users), email) ==> db.users == old(db.users)
    ensures Registered(old(db.users), email) ==>
      var k := FindUserByEmail(old(db.users), email).value;
      db.users == old(db.users)[k := old(db.users)[k].(resetToken := Some(token))]
  {
    var found := FindUserByEmail(db.users, email);
    if found.Some? {
      var k := found.value;
      db.users := db.users[k := db.users[k].(resetToken := Some(token))];
    }
    status := OK;
  }

  /** `db.query(User).filter(User.password_reset_token == token).first()`; a NULL token matches
      nothing. */
  function TokenHolder(users: seq<User>, token: string): Option<nat> {
    Find(users, (u: User) => u.resetToken == Some(token))
  }

  /** The state a successful reset leaves: new hash, token cleared. */
  function AfterReset(users: seq<User>, k: nat, newHash: string): seq<User>
    requires k < |users|
  {
    users[k := users[k].(hashedPassword := newHash, resetToken := None)]
  }

  /** `/reset-password` (routes.py:743-750): 400 for a token nobody holds; otherwise replace the
      holder's password hash and clear the token. */
  method ResetPassword(db: Database, token: string, newHash: string) returns (status: int)
    requires db.Valid()
    modifies db
    ensures db.Valid()
    ensures status == BAD_REQUEST <==> TokenHolder(old(db.users), token).None?
    ensures status == OK || status == BAD_REQUEST
    ensures status == BAD_REQUEST ==> db.Snap() == old(db.Snap())
    ensures status == OK ==>
      db.Snap() == old(db.Snap()).(users := AfterReset(old(db.users), TokenHolder(old(db.users), token).value, newHash))
    ensures AdminCount(db.users) == AdminCount(old(db.users))
  {
    var holder := TokenHolder(db.users, token);
    if holder.None? {
      return BAD_REQUEST;
    }
    AdminCountUpdate(db.users, holder.value, db.users[holder.value].(hashedPassword := newHash, resetToken := None));
    db.users := AfterReset(db.users, holder.value, newHash);
    status := OK;
  }

  /** A reset token held by a single user works once: after the reset nobody holds it, so a
      second `/reset-password` with it gets 400. */
  lemma ResetTokenSingleUse(users: seq<User>, token: string, newHash: string, newHash': string)
    requires TokenHolder(users, token).Some?
    requires forall i, j :: 0 <= i < j < |users| && users[i].resetToken == Some(token) ==>
      users[j].resetToken != Some(token)
    ensures TokenHolder(AfterReset(users, TokenHolder(users, token).value, newHash), token).None?
  {
    var k := TokenHolder(users, token).value;
    var after := AfterReset(users, k, newHash);
    forall j | 0 <= j < |after|
      ensures after[j].resetToken != Some(token)
    {
      if j < k {
        assert !(((u: User) => u.resetToken == Some(token))(users[j]));
      } else if j > k {
        assert users[k].resetToken == Some(token);
      }
    }
  }
}
