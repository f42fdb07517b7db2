/**
 * The Login page (frontend/src/pages/Login.js): the two-field form that
 * `handleChange` updates, the emptiness check of `handleSubmit`, and what
 * it does with the outcome of the login request.
 *
 * The request goes through `authAPI.login`; its outcome is a parameter.
 * `login(user, token)` belongs to the authentication context, which is not
 * part of this model: each call is logged.
 */
module Login {
  import opened Js
  import opened Auth

  const LoginFields: set<string> := {"email", "password"}

  const FillAllFieldsMessage := "Please fill in all fields"
  const LoginFailedMessage := "Login failed. Please check your credentials."

  predicate WellFormed(form: map<string, string>) {
    LoginFields <= form.Keys
  }

  /** The check of `handleSubmit`: both inputs must be filled in. */
  function LoginFormError(form: map<string, string>): (e: Option<string>)
    requires WellFormed(form)
    ensures e.None? <==> form["email"] != "" && form["password"] != ""
    ensures e.Some? ==> e.value == FillAllFieldsMessage
  {
    if form["email"] == "" || form["password"] == "" then Some(FillAllFieldsMessage) else None
  }

  /** The body `authAPI.login(email, password)` posts. */
  function LoginSubmission(form: map<string, string>): LoginRequest
    requires WellFormed(form)
  {
    LoginRequest(Some(form["email"]), Some(form["password"]))
  }

  /**
   * The client check and the server's first check agree: a form the client
   * lets through is never answered "Please provide email and password", and
   * a form it stops would have been.
   */
  lemma ClientCheckMatchesServer(form: map<string, string>, docs: seq<UserModel.UserDoc>,
                                 compare: (string, string) -> bool)
    requires WellFormed(form)
    ensures LoginFormError(form).None? <==> Login(docs, LoginSubmission(form), compare) != MissingLoginFields
  {
    if LoginFormError(form).None? {
      var resp := Login(docs, LoginSubmission(form), compare);
      assert resp.message != MissingLoginFields.message;
    }
  }

  /** The outcome of `authAPI.login`: the response's user and token, or an error whose `message` may be missing. */
  datatype LoginOutcome = LoggedIn(user: PublicUser, token: string) | LoginFailed(message: JsValue)

  class LoginPage {
    var formData: map<string, string>
    var error: JsValue
    var loginRequests: seq<LoginRequest>
    /** The `login(user, token)` calls made on the authentication context. */
    var sessions: seq<(PublicUser, string)>
    var navigations: seq<string>

    predicate Valid()
      reads this
    {
      WellFormed(formData)
    }

    constructor ()
      ensures Valid()
      ensures formData == map["email" := "", "password" := ""]
      ensures error == Str("") && loginRequests == [] && sessions == [] && navigations == []
    {
      formData := map["email" := "", "password" := ""];
      error := Str("");
      loginRequests := [];
      sessions := [];
      navigations := [];
    }

    /** `handleChange`: the named input takes the new value, every other input keeps its own. */
    method HandleChange(name: string, value: string)
      requires Valid()
      modifies this`formData
      ensures Valid()
      ensures formData.Keys == old(formData.Keys) + {name}
      ensures formData[name] == value
      ensures forall f :: f in old(formData) && f != name ==> formData[f] == old(formData)[f]
    {
      formData := formData[name := value];
    }

    /**
     * `handleSubmit`: clear the error; with an empty input show the message
     * and send nothing; otherwise send one request, and on success record
     * the session and then go to /dashboard, on failure show the error's
     * message (or the default one) and stay.
     */
    method HandleSubmit(outcome: LoginOutcome)
      requires Valid()
      modifies this`error, this`loginRequests, this`sessions, this`navigations
      ensures Valid()
      ensures LoginFormError(formData).Some? ==>
        && error == Str(FillAllFieldsMessage)
        && loginRequests == old(loginRequests) && sessions == old(sessions) && navigations == old(navigations)
      ensures LoginFormError(formData).None? ==>
        && loginRequests == old(loginRequests) + [LoginSubmission(formData)]
        && (outcome.LoggedIn? ==>
              && sessions == old(sessions) + [(outcome.user, outcome.token)]
              && navigations == old(navigations) + ["/dashboard"]
              && error == Str(""))
        && (outcome.LoginFailed? ==>
              && sessions == old(sessions) && navigations == old(navigations)
              && error == Or(outcome.message, Str(LoginFailedMessage)))
    {
      error := Str("");
      if formData["email"] == "" || formData["password"] == "" {
        error := Str(FillAllFieldsMessage);
        return;
      }
      loginRequests := loginRequests + [LoginRequest(Some(formData["email"]), Some(formData["password"]))];
      match outcome
      case LoggedIn(user, token) =>
        sessions := sessions + [(user, token)];
        navigations := navigations + ["/dashboard"];
      case LoginFailed(message) =>
        error := Or(message, Str(LoginFailedMessage));
    }
  }
}
