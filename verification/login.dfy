/**
 * The login form: a username and a password, checked before the credentials
 * are posted to the authentication endpoint. An effect is meant to clear the
 * validation errors once the user edits a field.
 */
module Login {
  import opened Common

  /** `formData`: field name to value; `handleChange` may add any name. */
  type Form = map<string, string>

  const MinPasswordLength: nat := 6
  const UsernameRequired: string := "Username is required"
  const PasswordRequired: string := "Password is required"
  const PasswordTooShort: string := "Password must be at least 6 characters"
  const LoginSucceeded: string := "Login successful!"
  const LoginFailed: string := "Login failed"

  const EmptyForm: Form := map["username" := "", "password" := ""]

  /** Both fields the form is built with are present. */
  predicate Complete(form: Form)
  {
    "username" in form && "password" in form
  }

  /**
   * validate: an empty username is required; an empty password is required,
   * and a non-empty one shorter than six UTF-16 code units is too short.
   */
  function Validate(form: Form): (errors: map<string, string>)
    requires Complete(form)
    ensures errors.Keys <= {"username", "password"}
    ensures "username" in errors <==> form["username"] == ""
    ensures "username" in errors ==> errors["username"] == UsernameRequired
    ensures "password" in errors <==> Utf16Length(form["password"]) < MinPasswordLength
    ensures "password" in errors ==> errors["password"] == if form["password"] == "" then PasswordRequired else PasswordTooShort
  {
    var errors := if form["username"] == "" then map["username" := UsernameRequired] else map[];
    if form["password"] == "" then errors["password" := PasswordRequired]
    else if Utf16Length(form["password"]) < MinPasswordLength then errors["password" := PasswordTooShort]
    else errors
  }

  /** The form passes exactly when the username is filled in and the password has at least six characters. */
  lemma ValidateEmptyIff(form: Form)
    requires Complete(form)
    ensures Validate(form) == map[] <==> form["username"] != "" && Utf16Length(form["password"]) >= MinPasswordLength
  {
    var errors := Validate(form);
    if errors != map[] {
      var k :| k in errors;
    }
  }

  /**
   * The password length is JavaScript's: three emoji are six code units, so a
   * password of three emoji is long enough although it has three characters.
   */
  lemma EmojiPasswordLongEnough(username: string)
    requires username != ""
    ensures var password := "\U{1F600}\U{1F600}\U{1F600}";
      |password| == 3 && Validate(map["username" := username, "password" := password]) == map[]
  {
    var password := "\U{1F600}\U{1F600}\U{1F600}";
    assert Astral(password[0]) && Astral(password[1]) && Astral(password[2]);
    assert password[1..][1..][1..] == [];
  }

  /**
   * The error-clearing effect as written: its dependencies include `errors`,
   * which a failed submit always replaces, so it runs right after that submit
   * and empties the errors it has just set.
   */
  function EffectAsWritten(errorsReplaced: bool, fieldChanged: bool, errors: map<string, string>): (r: map<string, string>)
    ensures r == errors || r == map[]
    ensures errors != map[] && (errorsReplaced || fieldChanged) ==> r == map[]
  {
    if (errorsReplaced || fieldChanged) && |errors| > 0 then map[] else errors
  }

  /** The effect with the evidently intended dependencies: the two fields only. */
  function EffectIntended(fieldChanged: bool, errors: map<string, string>): (r: map<string, string>)
    ensures fieldChanged ==> r == map[]
    ensures !fieldChanged ==> r == errors
  {
    if fieldChanged && |errors| > 0 then map[] else errors
  }

  /** As written, a submit with an empty username never leaves "Username is required" standing. */
  lemma ValidationErrorsVanishAsWritten(password: string)
    ensures var errors := Validate(map["username" := "", "password" := password]);
      errors != map[] && EffectAsWritten(true, false, errors) == map[]
  {
    var errors := Validate(map["username" := "", "password" := password]);
    assert "username" in errors;
  }

  /** With the intended dependencies, a failed submit's errors stay until a field is edited. */
  lemma ValidationErrorsPersistIntended(form: Form)
    requires Complete(form)
    ensures EffectIntended(false, Validate(form)) == Validate(form)
    ensures EffectIntended(true, Validate(form)) == map[]
  {
  }

  /** The awaited `fetch`: a response with its `ok` flag and token, or a thrown error's message. */
  datatype Reply = Responded(ok: bool, accessToken: string) | Failed(message: string)

  /** The callbacks: `onLoginSuccess` with a message or `onLoginError` with the error's message. */
  datatype Outcome = LoggedIn(message: string) | LoginError(message: string)

  /** The login form's state; `storedToken` is the `token` entry of local storage. */
  class LoginForm {
    var formData: Form
    var errors: map<string, string>
    var loading: bool
    var storedToken: Option<string>

    ghost predicate Valid()
      reads this
    {
      Complete(formData)
    }

    constructor ()
      ensures Valid() && formData == EmptyForm && errors == map[] && !loading && storedToken == None
    {
      formData := EmptyForm;
      errors := map[];
      loading := false;
      storedToken := None;
    }

    /**
     * handleChange followed by the (intended) effect: only the named field
     * takes the new value, and an edit that changes the username or the
     * password clears the errors.
     */
    method HandleChange(name: string, value: string)
      requires Valid()
      modifies this`formData, this`errors
      ensures Valid()
      ensures formData == old(formData)[name := value]
      ensures forall k :: k in old(formData) && k != name ==> k in formData && formData[k] == old(formData)[k]
      ensures errors == EffectIntended(
        formData["username"] != old(formData)["username"] || formData["password"] != old(formData)["password"],
        old(errors))
    {
      var before := formData;
      formData := formData[name := value];
      var fieldChanged := formData["username"] != before["username"] || formData["password"] != before["password"];
      errors := EffectIntended(fieldChanged, errors);
    }

    /**
     * handleSubmit. With validation errors they are stored and nothing is
     * sent; otherwise the form is posted (`sent`), a response with `ok` stores
     * the token and reports success, and anything else reports its error.
     * `loading` is false again in every outcome.
     */
    method HandleSubmit(reply: Reply) returns (sent: Option<Form>, outcome: Option<Outcome>)
      requires Valid()
      modifies this`errors, this`loading, this`storedToken
      ensures Valid()
      ensures var newErrors := Validate(formData);
        && (sent.None? <==> newErrors != map[])
        && (newErrors != map[] ==> errors == newErrors && outcome.None? && loading == old(loading) && storedToken == old(storedToken))
      ensures sent.Some? ==> sent == Some(formData) && errors == old(errors) && !loading
      ensures sent.Some? && reply.Responded? && reply.ok ==>
        storedToken == Some(reply.accessToken) && outcome == Some(LoggedIn(LoginSucceeded))
      ensures sent.Some? && reply.Responded? && !reply.ok ==>
        storedToken == old(storedToken) && outcome == Some(LoginError(LoginFailed))
      ensures sent.Some? && reply.Failed? ==>
        storedToken == old(storedToken) && outcome == Some(LoginError(reply.message))
    {
      var newErrors := Validate(formData);
      if newErrors != map[] {
        errors := EffectIntended(false, newErrors);
        sent := None;
        outcome := None;
      } else {
        loading := true;
        sent := Some(formData);
        match reply {
          case Responded(ok, token) =>
            if !ok {
              loading := false;
              outcome := Some(LoginError(LoginFailed));
            } else {
              storedToken := Some(token);
              loading := false;
              outcome := Some(LoggedIn(LoginSucceeded));
            }
          case Failed(message) =>
            loading := false;
            outcome := Some(LoginError(message));
        }
      }
    }
  }
}
