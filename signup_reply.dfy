/** The reply the sign-up screen receives from create_user, as the framework
    sends it. The route declares UserResponse as its response model, so every
    value the handler returns is validated against that model before it is
    sent. */
module SignUpReply {
  import opened Common
  import opened Models
  import Auth
  import opened Client
  import opened AuthScreen

  /** An HTTP reply: the status and the body, None when it is not JSON. */
  datatype HttpReply = HttpReply(status: int, body: Option<JsValue>)

  /** A user row as UserResponse serializes it. */
  function UserJson(u: User): (v: JsValue)
    ensures v.Obj? && "message" !in v.fields
    ensures v.Obj? && "email" in v.fields && v.fields["email"] == Str(u.email)
  {
    Obj(map[
      "id" := Num(u.id as real),
      "email" := Str(u.email),
      "age" := Num(u.age as real),
      "gender" := Str(u.gender),
      "push_token" := if u.pushToken.Some? then Str(u.pushToken.value) else Null])
  }

  /** The reply as the route is written: a created user serializes with
      status 201; the message dict has none of UserResponse's required
      fields (id, email, age, gender), so response validation fails and the
      reply is a 500 with a plain-text body. */
  function CreateUserReplyAsWritten(r: Auth.CreateReply): (h: HttpReply)
    ensures r.Created? ==> h == HttpReply(201, Some(UserJson(r.user)))
    ensures r.AlreadyExists? ==> h.status == 500 && h.body.None?
  {
    match r
    case Created(user) => HttpReply(201, Some(UserJson(user)))
    case AlreadyExists(_) => HttpReply(500, None)
  }

  /** The reply the two sides are written for: the conflict message reaches
      the client as {"message": ...}. */
  function CreateUserReplyIntended(r: Auth.CreateReply): (h: HttpReply)
    ensures r.Created? ==> h == HttpReply(201, Some(UserJson(r.user)))
    ensures r.AlreadyExists? ==> h.body == Some(Obj(map["message" := Str(r.message)]))
  {
    match r
    case Created(user) => HttpReply(201, Some(UserJson(user)))
    case AlreadyExists(message) => HttpReply(201, Some(Obj(map["message" := Str(message)])))
  }

  /** As written, signing up with an email that is taken never shows
      "Account already exists": the reply is not JSON, res.json() throws and
      the screen keeps its message. */
  lemma AsWrittenHidesAccountExists(message: string)
    ensures MessageAfterSignUp(message, true, CreateUserReplyAsWritten(Auth.AlreadyExists(Auth.AccountExistsMessage)).body) == message
  {
  }

  /** With the intended reply, the screen shows the message for a taken
      email, and a new account leaves the screen's message alone. */
  lemma IntendedShowsAccountExists(message: string, user: User)
    ensures MessageAfterSignUp(message, true, CreateUserReplyIntended(Auth.AlreadyExists(Auth.AccountExistsMessage)).body) == AccountExistsMessage
    ensures MessageAfterSignUp(message, true, CreateUserReplyIntended(Auth.Created(user)).body) == message
  {
    var body := Obj(map["message" := Str(Auth.AccountExistsMessage)]);
    assert Get(body, "message") == Some(Str(AccountExistsMessage));
  }
}
