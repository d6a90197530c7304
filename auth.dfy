/** The auth router over the users table: sign-up that creates a user only
    for a new email, password authentication, the login reply, reading the
    current user from a token, and storing a device's push token. Hashing and
    verifying passwords are function parameters; an access token is modelled
    by the claims it carries. */
module Auth {
  import opened Common
  import opened Models

  /** The body of POST /auth/ (schemas.AuthDetails). */
  datatype SignUpRequest = SignUpRequest(
    email: string,
    age: int,
    gender: string,
    password: string,
    pushToken: Option<string>)

  /** The reply of create_user: the new row, or the "Account already exists" message. */
  datatype CreateReply = Created(user: User) | AlreadyExists(message: string)

  const AccountExistsMessage: string := "Account already exists"

  /** bcrypt's hash and verify. */
  type Hasher = string -> string
  type Verifier = (string, string) -> bool

  /** The login reply (schemas.Token); the token is given by its claims. */
  datatype TokenReply = TokenReply(accessToken: Claims, tokenType: string)

  /** The reply of get_current_user. */
  datatype CurrentUser = CurrentUser(email: string, id: int)

  /** The row create_user inserts: the request's email, age and gender, the
      hash of the password, and no push token yet. */
  function NewUser(id: nat, req: SignUpRequest, hash: Hasher): (u: User)
    ensures u.id == id && u.email == req.email && u.age == req.age && u.gender == req.gender
    ensures u.hashedPassword == hash(req.password) && u.pushToken.None?
  {
    User(id, req.email, req.age, req.gender, hash(req.password), None)
  }

  /** authenticate_user: the user with that email, when the password verifies
      against the stored hash; False (None here) otherwise. */
  function AuthenticateUser(users: seq<User>, username: string, password: string, verify: Verifier): (r: Option<User>)
    ensures r.None? <==>
      UserByEmail(users, username).None? || !verify(password, UserByEmail(users, username).value.hashedPassword)
    ensures r.Some? ==> r.value in users && r.value.email == username && verify(password, r.value.hashedPassword)
  {
    match UserByEmail(users, username)
    case None => None
    case Some(user) => if !verify(password, user.hashedPassword) then None else Some(user)
  }

  /** create_access_token: the claims {"sub": email, "id": user id}. */
  function CreateAccessToken(email: string, userId: int): (c: Claims)
    ensures c.sub == Some(email) && c.id == Some(userId)
  {
    Claims(Some(email), Some(userId))
  }

  /** login_for_access_token: 401 unless authentication succeeds, else a
      bearer token for the user's email and id. */
  function Login(users: seq<User>, username: string, password: string, verify: Verifier): (r: Result<TokenReply>)
    ensures r.Err? <==> AuthenticateUser(users, username, password, verify).None?
    ensures r.Err? ==> r.status == 401 && r.detail == "Could not validate user"
    ensures r.Ok? ==>
      var u := AuthenticateUser(users, username, password, verify).value;
      r.value == TokenReply(CreateAccessToken(u.email, u.id), "bearer")
  {
    match AuthenticateUser(users, username, password, verify)
    case None => Err(401, "Could not validate user")
    case Some(user) => Ok(TokenReply(CreateAccessToken(user.email, user.id), "bearer"))
  }

  /** get_current_user: the email and id of a valid token, 401 when either
      claim is missing or the token does not decode. */
  function GetCurrentUser(token: TokenDecode): (r: Result<CurrentUser>)
    ensures r.Ok? <==> token.Decoded? && token.claims.sub.Some? && token.claims.id.Some?
    ensures r.Ok? ==> r.value == CurrentUser(token.claims.sub.value, token.claims.id.value)
    ensures r.Err? ==> r == Err(401, "Could not validate user.")
  {
    match token
    case Decoded(Claims(Some(email), Some(id))) => Ok(CurrentUser(email, id))
    case _ => Err(401, "Could not validate user.")
  }

  /** A token issued at login reads back as the user it was issued for. */
  lemma LoginTokenIdentifiesUser(users: seq<User>, username: string, password: string, verify: Verifier)
    requires Login(users, username, password, verify).Ok?
    ensures var u := AuthenticateUser(users, username, password, verify).value;
      GetCurrentUser(Decoded(Login(users, username, password, verify).value.accessToken)) == Ok(CurrentUser(u.email, u.id))
    ensures GetCurrentUser(Decoded(Login(users, username, password, verify).value.accessToken)).value.email == username
  {
  }

  /** Emails are unique across the table. */
  ghost predicate EmailsDistinct(users: seq<User>) {
    forall i, j :: 0 <= i < j < |users| ==> users[i].email != users[j].email
  }

  function UserIdOf(u: User): int {
    u.id
  }

  /** After signing up with a new email, logging in with the same password
      authenticates the new user, provided verify accepts a password against
      its own hash. */
  lemma SignUpThenAuthenticate(users: seq<User>, id: nat, req: SignUpRequest, hash: Hasher, verify: Verifier)
    requires UserByEmail(users, req.email).None?
    requires verify(req.password, hash(req.password))
    ensures AuthenticateUser(users + [NewUser(id, req, hash)], req.email, req.password, verify) == Some(NewUser(id, req, hash))
  {
    var all := users + [NewUser(id, req, hash)];
    assert all[|users|].email == req.email;
    var found := UserByEmail(all, req.email).value;
    var k :| 0 <= k < |all| && all[k] == found;
    assert forall j :: 0 <= j < |users| ==> all[j] == users[j];
    assert k == |users|;
  }

  /** The `EmailStr` type of the body's email: the normalized address (the
      domain lower-cased, for one), or None for an address the validator
      rejects. The validator itself is not part of this model. */
  type EmailNormalizer = string -> Option<string>

  /** Request validation of POST /auth/: 422 for an email the validator
      rejects, otherwise the body with its email normalized, which is what
      create_user receives and stores. */
  function ValidateSignUp(body: SignUpRequest, normalize: EmailNormalizer): (r: Result<SignUpRequest>)
    ensures r.Err? <==> normalize(body.email).None?
    ensures r.Err? ==> r.status == 422
    ensures r.Ok? ==> r.value.email == normalize(body.email).value
    ensures r.Ok? ==> r.value.(email := body.email) == body
  {
    match normalize(body.email)
    case None => Err(422, "value is not a valid email address")
    case Some(e) => Ok(body.(email := e))
  }

  /** The sign-up screen sends the address as typed to both POST /auth/ and
      POST /auth/token. When validation changes the address, the login that
      follows the sign-up finds no row under the typed address and fails;
      when it leaves the address as typed, the login finds the new user. */
  lemma LoginWithTypedAddress(
    users: seq<User>, id: nat, body: SignUpRequest, normalize: EmailNormalizer, hash: Hasher, verify: Verifier)
    requires ValidateSignUp(body, normalize).Ok?
    requires UserByEmail(users, ValidateSignUp(body, normalize).value.email).None?
    requires UserByEmail(users, body.email).None?
    requires verify(body.password, hash(body.password))
    ensures var stored := users + [NewUser(id, ValidateSignUp(body, normalize).value, hash)];
      AuthenticateUser(stored, body.email, body.password, verify).Some? <==> normalize(body.email) == Some(body.email)
  {
    var req := ValidateSignUp(body, normalize).value;
    var stored := users + [NewUser(id, req, hash)];
    if normalize(body.email) == Some(body.email) {
      assert req == body;
      SignUpThenAuthenticate(users, id, req, hash, verify);
    } else {
      forall i | 0 <= i < |stored| ensures stored[i].email != body.email {
        if i < |users| {
          assert stored[i] == users[i];
        }
      }
    }
  }

  /** Rows edited without touching their ids and emails keep the ids and
      emails pairwise different and the ids below the next key. */
  lemma SameKeysKeepTable(before: seq<User>, after: seq<User>, nextId: nat)
    requires |after| == |before|
    requires forall i :: 0 <= i < |before| ==> after[i].id == before[i].id && after[i].email == before[i].email
    requires DistinctOn(before, UserIdOf) && EmailsDistinct(before)
    requires forall u :: u in before ==> u.id < nextId
    ensures DistinctOn(after, UserIdOf) && EmailsDistinct(after)
    ensures forall u :: u in after ==> u.id < nextId
  {
    forall u | u in after ensures u.id < nextId {
      var i :| 0 <= i < |after| && after[i] == u;
      assert before[i] in before;
    }
    forall i, j | 0 <= i < j < |after| ensures UserIdOf(after[i]) != UserIdOf(after[j]) {
      assert UserIdOf(before[i]) != UserIdOf(before[j]);
    }
  }

  /** The users table, in insertion order, with the next primary key. */
  class UserTable {
    var users: seq<User>
    var nextId: nat

    ghost predicate Valid()
      reads this
    {
      && DistinctOn(users, UserIdOf)
      && EmailsDistinct(users)
      && forall u :: u in users ==> u.id < nextId
    }

    constructor ()
      ensures users == [] && nextId == 1 && Valid()
    {
      users := [];
      nextId := 1;
    }

    /** create_user: an existing email adds nothing; a new one adds exactly
        one row. */
    method CreateUser(req: SignUpRequest, hash: Hasher) returns (r: CreateReply)
      requires Valid()
      modifies this
      ensures Valid()
      ensures old(UserByEmail(users, req.email)).Some? ==>
        r == AlreadyExists(AccountExistsMessage) && users == old(users) && nextId == old(nextId)
      ensures old(UserByEmail(users, req.email)).None? ==>
        && users == old(users) + [NewUser(old(nextId), req, hash)]
        && nextId == old(nextId) + 1
        && r == Created(NewUser(old(nextId), req, hash))
    {
      var existingUser := UserByEmail(users, req.email);
      if existingUser.None? {
        var user := NewUser(nextId, req, hash);
        ghost var before := users;
        users := users + [user];
        nextId := nextId + 1;
        assert DistinctOn(users, UserIdOf) && EmailsDistinct(users) by {
          forall i, j | 0 <= i < j < |users|
            ensures UserIdOf(users[i]) != UserIdOf(users[j]) && users[i].email != users[j].email
          {
            assert users[i] == before[i];
            if j < |before| {
              assert users[j] == before[j];
            } else {
              assert before[i] in before;
            }
          }
        }
        r := Created(user);
      } else {
        r := AlreadyExists(AccountExistsMessage);
      }
    }

    /** update_push_token: sets the push token of the user with that id
        (None when the payload has no "token"); every other row is
        unchanged, and the reply is the same whether or not the user exists. */
    method UpdatePushToken(userId: int, token: Option<string>) returns (message: string)
      requires Valid()
      modifies this
      ensures Valid() && nextId == old(nextId)
      ensures |users| == |old(users)|
      ensures forall i :: 0 <= i < |users| ==>
        users[i] == if old(users)[i].id == userId then old(users)[i].(pushToken := token) else old(users)[i]
      ensures message == "Token updated"
    {
      var user := UserById(users, userId);
      if user.Some? {
        var before := users;
        users := seq(|before|, i requires 0 <= i < |before| =>
          if before[i].id == userId then before[i].(pushToken := token) else before[i]);
        SameKeysKeepTable(before, users, nextId);
      } else {
        assert forall i :: 0 <= i < |users| ==> users[i].id != userId;
      }
      message := "Token updated";
    }
  }
}
