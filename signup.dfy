/**
 * The Signup page (frontend/src/pages/Signup.js): the form state that
 * `handleChange` updates, the client-side checks `handleSubmit` runs in
 * order, the emergency-contact list it builds, and what it does with the
 * outcome of `register`.
 *
 * `register` comes from the authentication context, which is not part of
 * this model: its outcome is a parameter, and the request it was called
 * with is logged. How the server answers that request is `Auth.Registered`.
 */
module Signup {
  import opened Js
  import opened UserModel
  import opened Auth
  import Text

  /** The inputs of the form, by their `name` attribute. */
  const FormFields: set<string> :=
    {"name", "email", "phone", "password", "confirmPassword", "emergencyContact1", "emergencyContact2"}

  /** The client's own minimum password length. */
  const ClientMinPasswordLength: nat := 6

  const RequiredFieldsMessage := "Please fill in all required fields"
  const MismatchMessage := "Passwords do not match"
  const ShortPasswordMessage := "Password must be at least 6 characters long"
  const SignupFailedMessage := "Signup failed. Please try again."

  /** Every input of the form has a value (all start as ""). */
  predicate WellFormed(form: map<string, string>) {
    FormFields <= form.Keys
  }

  /** The checks of `handleSubmit`, in order; the first one that fails gives the message. */
  function SignupError(form: map<string, string>): Option<string>
    requires WellFormed(form)
  {
    if form["name"] == "" || form["email"] == "" || form["password"] == "" || form["confirmPassword"] == "" then
      Some(RequiredFieldsMessage)
    else if form["password"] != form["confirmPassword"] then
      Some(MismatchMessage)
    else if |form["password"]| < ClientMinPasswordLength then
      Some(ShortPasswordMessage)
    else
      None
  }

  /**
   * Each message is shown exactly when its check is the first to fail, and
   * the form passes exactly when all four required inputs are filled, the
   * passwords match and the password is long enough.
   */
  lemma SignupErrorCases(form: map<string, string>)
    requires WellFormed(form)
    ensures var filled := form["name"] != "" && form["email"] != "" && form["password"] != ""
                          && form["confirmPassword"] != "";
      && (SignupError(form) == Some(RequiredFieldsMessage) <==> !filled)
      && (SignupError(form) == Some(MismatchMessage) <==> filled && form["password"] != form["confirmPassword"])
      && (SignupError(form) == Some(ShortPasswordMessage) <==>
            filled && form["password"] == form["confirmPassword"] && |form["password"]| < ClientMinPasswordLength)
      && (SignupError(form).None? <==>
            filled && form["password"] == form["confirmPassword"] && |form["password"]| >= ClientMinPasswordLength)
  {
  }

  /** Phone and the emergency contacts are optional: their values never change the outcome of the checks. */
  lemma OptionalInputs(form: map<string, string>, field: string, value: string)
    requires WellFormed(form) && field in {"phone", "emergencyContact1", "emergencyContact2"}
    ensures WellFormed(form[field := value]) && SignupError(form[field := value]) == SignupError(form)
  {
  }

  /** The non-empty entries, in their order. */
  function Filled(entries: seq<string>): (r: seq<string>)
    ensures |r| <= |entries|
    ensures forall k :: 0 <= k < |r| ==> r[k] != ""
    ensures forall e :: e in r <==> e in entries && e != ""
  {
    if entries == [] then []
    else (if entries[0] != "" then [entries[0]] else []) + Filled(entries[1..])
  }

  /** A single entry is kept exactly when it is filled in. */
  lemma FilledOne(e: string)
    ensures Filled([e]) == if e != "" then [e] else []
  {
    assert [e][1..] == [];
  }

  /** Filtering distributes over concatenation: entries keep their order and their repetitions. */
  lemma {:induction false} FilledAppend(xs: seq<string>, ys: seq<string>)
    ensures Filled(xs + ys) == Filled(xs) + Filled(ys)
  {
    if xs != [] {
      assert (xs + ys)[0] == xs[0];
      assert (xs + ys)[1..] == xs[1..] + ys;
      FilledAppend(xs[1..], ys);
    } else {
      assert xs + ys == ys;
    }
  }

  /** A contact object `{ email }` per entry; no name is sent. */
  function AsContacts(emails: seq<string>): (cs: seq<Contact>)
    ensures |cs| == |emails|
    ensures forall k :: 0 <= k < |emails| ==> cs[k] == Contact(emails[k], None)
  {
    seq(|emails|, k requires 0 <= k < |emails| => Contact(emails[k], None))
  }

  /**
   * The emergency contacts `handleSubmit` pushes: the first input, then the
   * second, each only when it is filled in.
   */
  method BuildEmergencyContacts(first: string, second: string) returns (contacts: seq<Contact>)
    ensures contacts == AsContacts(Filled([first, second]))
    ensures |contacts| <= 2
    ensures forall k :: 0 <= k < |contacts| ==> contacts[k].email != "" && contacts[k].name.None?
  {
    contacts := [];
    if first != "" {
      contacts := contacts + [Contact(first, None)];
    }
    if second != "" {
      contacts := contacts + [Contact(second, None)];
    }
    assert [first, second] == [first] + [second];
    FilledAppend([first], [second]);
    FilledOne(first);
    FilledOne(second);
  }

  /** The `userData` `handleSubmit` passes to `register` (`phone || ''` is the phone itself, a string). */
  function Submission(form: map<string, string>): RegisterRequest
    requires WellFormed(form)
  {
    RegisterRequest(
      Some(form["name"]), Some(form["email"]), Some(form["phone"]), Some(form["password"]),
      Some(AsContacts(Filled([form["emergencyContact1"], form["emergencyContact2"]]))))
  }

  /** The name is not blank once trimmed, and the email and each contact email are not blank once normalised. */
  predicate NotBlankOnceNormalized(name: string, email: string, contacts: seq<string>) {
    && Text.Trim(name) != ""
    && NormalizeEmail(email) != ""
    && forall k :: 0 <= k < |contacts| ==> NormalizeEmail(contacts[k]) != ""
  }

  /**
   * A form the client accepts carries every field the server requires, and
   * the server's validation then accepts the new document exactly when the
   * name is not blank once trimmed and the email and each contact email
   * are not blank once normalised: the password always meets the schema's
   * minimum length.
   */
  lemma ClientAndServerValidation(form: map<string, string>, newId: string)
    requires WellFormed(form) && SignupError(form).None?
    ensures HasRequiredFields(Submission(form))
    ensures var d := NewDocument(Submission(form), newId);
      var contacts := Filled([form["emergencyContact1"], form["emergencyContact2"]]);
      && PasswordViolations(d.password) == {}
      && (Admissible(d) <==> NotBlankOnceNormalized(form["name"], form["email"], contacts))
  {
    var name, email, phone, password := form["name"], form["email"], form["phone"], form["password"];
    var contacts := Filled([form["emergencyContact1"], form["emergencyContact2"]]);
    assert Submission(form)
        == RegisterRequest(Some(name), Some(email), Some(phone), Some(password), Some(AsContacts(contacts)));
    SubmittedDocument(name, email, phone, password, contacts, newId);
  }

  /** The document the server builds from a request with the given fields. */
  lemma SubmittedDocument(name: string, email: string, phone: string, password: string, contacts: seq<string>,
                          newId: string)
    requires name != "" && email != "" && |password| >= MinPasswordLength
    ensures var req := RegisterRequest(Some(name), Some(email), Some(phone), Some(password), Some(AsContacts(contacts)));
      && HasRequiredFields(req)
      && PasswordViolations(NewDocument(req, newId).password) == {}
      && (Admissible(NewDocument(req, newId)) <==> NotBlankOnceNormalized(name, email, contacts))
  {
    var req := RegisterRequest(Some(name), Some(email), Some(phone), Some(password), Some(AsContacts(contacts)));
    var d := NewDocument(req, newId);
    assert d == Cast(newId, name, email, phone, password, AsContacts(contacts));
    ContactEmailsNormalized(contacts, d.emergencyContacts);
  }

  lemma ContactEmailsNormalized(emails: seq<string>, stored: seq<Contact>)
    requires stored == CastContacts(AsContacts(emails))
    ensures |stored| == |emails|
    ensures (forall k :: 0 <= k < |stored| ==> stored[k].email != "")
        <==> (forall k :: 0 <= k < |emails| ==> NormalizeEmail(emails[k]) != "")
  {
    assert forall k :: 0 <= k < |emails| ==> stored[k].email == NormalizeEmail(emails[k]);
  }

  /**
   * A name made only of spaces passes the client's checks, but the schema
   * trims it to "" and `save` rejects it: the server answers 500, not a
   * validation message.
   */
  lemma BlankNameFailsOnServer(docs: seq<UserDoc>, form: map<string, string>, newId: string, hash: string -> string)
    requires WellFormed(form) && SignupError(form).None?
    requires forall i :: 0 <= i < |form["name"]| ==> Text.IsWhitespace(form["name"][i])
    requires FindByEmail(docs, form["email"]).None?
    ensures Registered(docs, Submission(form), newId, hash) == RegisterResult(RegisterServerError, docs)
  {
    Text.TrimAllWhitespace(form["name"]);
    ClientAndServerValidation(form, newId);
  }

  /** The outcome of the `register` call: it resolves, or it throws an error whose `message` may be missing. */
  datatype RegisterOutcome = RegisterResolved | RegisterFailed(message: JsValue)

  /** The page's state: the form, the error shown, and the calls and navigations it made. */
  class SignupPage {
    var formData: map<string, string>
    var error: JsValue
    var registerCalls: seq<RegisterRequest>
    var navigations: seq<string>

    predicate Valid()
      reads this
    {
      WellFormed(formData)
    }

    constructor ()
      ensures Valid()
      ensures formData == map f | f in FormFields :: ""
      ensures error == Str("") && registerCalls == [] && navigations == []
    {
      formData := map f | f in FormFields :: "";
      error := Str("");
      registerCalls := [];
      navigations := [];
    }

    /** `handleChange`: the named input takes the new value, every other input keeps its own. */
    method HandleChange(name: string, value: string)
      requires Valid()
      modifies this`formData
      ensures Valid()
      ensures formData.Keys == old(formData.Keys) + {name}
      ensures formData[name] == value
      ensures forall f :: f in old(formData) && f != name ==> formData[f] == old(formData)[f]
    {
      formData := formData[name := value];
    }

    /**
     * `handleSubmit`: clear the error; on a failed check show its message
     * and call nothing; otherwise call `register` once with the submission,
     * then go to /dashboard when it resolves, or show its error message
     * (or the default one) when it throws.
     */
    method HandleSubmit(outcome: RegisterOutcome)
      requires Valid()
      modifies this`error, this`registerCalls, this`navigations
      ensures Valid()
      ensures SignupError(formData).Some? ==>
        && error == Str(SignupError(formData).value)
        && registerCalls == old(registerCalls) && navigations == old(navigations)
      ensures SignupError(formData).None? ==>
        && registerCalls == old(registerCalls) + [Submission(formData)]
        && (outcome.RegisterResolved? ==> navigations == old(navigations) + ["/dashboard"] && error == Str(""))
        && (outcome.RegisterFailed? ==>
              navigations == old(navigations) && error == Or(outcome.message, Str(SignupFailedMessage)))
    {
      error := Str("");
      var check := SignupError(formData);
      if check.Some? {
        error := Str(check.value);
        return;
      }
      var contacts := BuildEmergencyContacts(formData["emergencyContact1"], formData["emergencyContact2"]);
      var userData := RegisterRequest(
        Some(formData["name"]), Some(formData["email"]), Some(formData["phone"]), Some(formData["password"]),
        Some(contacts));
      registerCalls := registerCalls + [userData];
      match outcome
      case RegisterResolved =>
        navigations := navigations + ["/dashboard"];
      case RegisterFailed(message) =>
        error := Or(message, Str(SignupFailedMessage));
    }
  }

  /** After a failed submission the page always shows an error: every message, and the default, is non-empty. */
  lemma SubmitFailureShowsError(form: map<string, string>, message: JsValue)
    requires WellFormed(form)
    ensures SignupError(form).Some? ==> SignupError(form).value != ""
    ensures Truthy(Or(message, Str(SignupFailedMessage)))
  {
  }
}
