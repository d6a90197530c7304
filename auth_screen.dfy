/** The sign-up screen: the form is checked on submit, an accepted form
    becomes a sign-up payload and a login payload, and the replies to the two
    requests set the message, or store the token and go home. */
module AuthScreen {
  import opened Common
  import opened Client

  const IncompleteFormMessage: string := "Complete all fields and Pasword must be up to 8 characters"
  const AccountExistsMessage: string := "Account already exists"

  /** The shortest password the form accepts. */
  const MinPasswordLength: nat := 8

  /** The age input: undefined until typed into, then its text. */
  predicate AgeTruthy(age: Option<string>) {
    age.Some? && age.value != ""
  }

  /** The submit check: every field filled in and a password whose
      `length`, in UTF-16 code units, is at least eight. */
  predicate FormAccepted(email: string, age: Option<string>, password: string, gender: string) {
    email != "" && AgeTruthy(age) && gender != "" && password != "" && JsLength(password) >= MinPasswordLength
  }

  /** The payload of POST /auth/. */
  datatype UserForm = UserForm(email: string, age: string, gender: string, password: string)

  /** The payload of POST /auth/token. */
  datatype LoginForm = LoginForm(username: string, password: string)

  /** The length is the only test on the password's content: every non-empty
      email, age and gender pass with any password of eight UTF-16 code
      units, and a shorter password fails whatever the other fields hold. */
  lemma PasswordLengthBoundary(email: string, age: string, password: string, gender: string)
    requires email != "" && age != "" && gender != ""
    ensures JsLength(password) == MinPasswordLength ==> FormAccepted(email, Some(age), password, gender)
    ensures JsLength(password) < MinPasswordLength ==> !FormAccepted(email, Some(age), password, gender)
  {
  }

  /** Four astral characters (four emoji, say) make a password of length
      eight, which the form accepts although it holds only four characters. */
  lemma AstralPasswordAccepted(email: string, age: string, gender: string, c: char)
    requires email != "" && age != "" && gender != "" && Astral(c)
    ensures |[c, c, c, c]| == 4
    ensures FormAccepted(email, Some(age), [c, c, c, c], gender)
  {
    assert JsLength([c]) == 2 by {
      assert [c][1..] == [];
    }
    assert JsLength([c, c]) == 4 by {
      assert [c, c][1..] == [c];
    }
    assert JsLength([c, c, c]) == 6 by {
      assert [c, c, c][1..] == [c, c];
    }
    assert JsLength([c, c, c, c]) == 8 by {
      assert [c, c, c, c][1..] == [c, c, c];
    }
  }

  /** The message after the sign-up reply: the "Account already exists"
      reply sets it, once a form has been sent; anything else keeps it. */
  function MessageAfterSignUp(message: string, formSent: bool, body: Option<JsValue>): (m: string)
    ensures formSent && body.Some? && Get(body.value, "message") == Some(Str(AccountExistsMessage)) ==> m == AccountExistsMessage
    ensures !(formSent && body.Some? && Get(body.value, "message") == Some(Str(AccountExistsMessage))) ==> m == message
  {
    if formSent && body.Some? && Get(body.value, "message") == Some(Str(AccountExistsMessage)) then AccountExistsMessage
    else message
  }

  /** How the login request ends: the token reply, or an error. */
  datatype LoginReply = LoggedIn(accessToken: string, tokenType: string) | LoginFailed

  /** The screen's state. */
  class AuthForm {
    var message: string
    var userFormData: Option<UserForm>
    var loginFormData: Option<LoginForm>

    constructor ()
      ensures message == "" && userFormData.None? && loginFormData.None?
    {
      message := "";
      userFormData := None;
      loginFormData := None;
    }

    /** handleSubmit: a rejected form sets the message and keeps both
      payloads; an accepted one sets both payloads from the same fields and
      leaves the message as it was. */
    method HandleSubmit(email: string, age: Option<string>, password: string, gender: string)
      modifies this
      ensures !FormAccepted(email, age, password, gender) ==>
        message == IncompleteFormMessage && userFormData == old(userFormData) && loginFormData == old(loginFormData)
      ensures FormAccepted(email, age, password, gender) ==>
        && message == old(message)
        && userFormData == Some(UserForm(email, age.value, gender, password))
        && loginFormData == Some(LoginForm(email, password))
    {
      if !FormAccepted(email, age, password, gender) {
        message := IncompleteFormMessage;
      } else {
        userFormData := Some(UserForm(email, age.value, gender, password));
        loginFormData := Some(LoginForm(email, password));
      }
    }

    /** The sign-up effect, given the parsed reply body (None when the fetch
      or the parse throws): the "Account already exists" reply sets that
      message; nothing happens before a form has been accepted. */
    method OnSignUpReply(body: Option<JsValue>)
      modifies this
      ensures userFormData == old(userFormData) && loginFormData == old(loginFormData)
      ensures message == MessageAfterSignUp(old(message), old(userFormData).Some?, body)
    {
      if userFormData.None? || body.None? {
        return;
      }
      if Get(body.value, "message") == Some(Str(AccountExistsMessage)) {
        message := AccountExistsMessage;
      }
    }

    /** The login effect: a token reply is stored under "token" and then the
      app goes home; an error changes nothing. Nothing happens before a form
      has been accepted. */
    method OnLoginReply(reply: LoginReply, store: TokenStore) returns (actions: seq<Action>)
      modifies store
      ensures old(loginFormData).Some? && reply.LoggedIn? ==>
        store.token == Some(reply.accessToken) && actions == [Navigate(HomeRoute)]
      ensures !(old(loginFormData).Some? && reply.LoggedIn?) ==>
        store.token == old(store.token) && actions == []
    {
      if loginFormData.None? || reply.LoginFailed? {
        return [];
      }
      store.SetToken(reply.accessToken);
      actions := [Navigate(HomeRoute)];
    }
  }
}
