/**
 * The `/register` and `/login` handlers of backend/routes/auth.js over the
 * user collection. The collection is the sequence of stored documents in
 * natural order; `findOne({ email })` is the first document whose email
 * equals the query value after the email path's setters (lowercase, trim)
 * have been applied to it. The collection enforces the schema's unique
 * indexes on `_id` and `email`.
 *
 * The JWT is not modelled beyond the user id it carries (`token`), the
 * ObjectId of a new document is a parameter (`newId`) because it comes from
 * the driver's clock and randomness, and bcrypt is the pair `hash`/`compare`.
 */
module Auth {
  import opened Js
  import opened UserModel

  datatype RegisterRequest = RegisterRequest(
    name: Option<string>,
    email: Option<string>,
    phone: Option<string>,
    password: Option<string>,
    emergencyContacts: Option<seq<Contact>>)

  datatype LoginRequest = LoginRequest(email: Option<string>, password: Option<string>)

  /** The `user` object of a response: every stored path except the password. */
  datatype PublicUser = PublicUser(
    id: string,
    name: string,
    email: string,
    phone: string,
    emergencyContacts: seq<Contact>)

  /** A JSON response; `token` stands for the signed JWT and holds the user id it carries. */
  datatype Response = Response(status: nat, message: string, token: Option<string>, user: Option<PublicUser>)

  const MissingRegisterFields := Response(400, "Please provide name, email, and password", None, None)
  const UserExists := Response(400, "User already exists with this email", None, None)
  const RegisterServerError := Response(500, "Server error during registration", None, None)
  const MissingLoginFields := Response(400, "Please provide email and password", None, None)
  const InvalidCredentials := Response(400, "Invalid email or password", None, None)

  /** A request field that is present and truthy (`!field` is false). */
  predicate Provided(f: Option<string>) {
    f.Some? && f.value != ""
  }

  /** `field || ''`. */
  function OrEmpty(f: Option<string>): string {
    if Provided(f) then f.value else ""
  }

  function Public(d: UserDoc): PublicUser {
    PublicUser(d.id, d.name, d.email, d.phone, d.emergencyContacts)
  }

  /** The first document whose stored email is `key`. */
  function FindFirstWithEmail(docs: seq<UserDoc>, key: string): (r: Option<UserDoc>)
    ensures r.Some? ==> r.value in docs && r.value.email == key
    ensures r.Some? ==> exists i :: 0 <= i < |docs| && docs[i] == r.value
                                    && forall j :: 0 <= j < i ==> docs[j].email != key
    ensures r.None? <==> forall i :: 0 <= i < |docs| ==> docs[i].email != key
  {
    if docs == [] then None
    else if docs[0].email == key then Some(docs[0])
    else FindFirstWithEmail(docs[1..], key)
  }

  /** `User.findOne({ email })`: the query value is cast through the path's setters. */
  function FindByEmail(docs: seq<UserDoc>, email: string): (r: Option<UserDoc>)
    ensures r.Some? ==> r.value in docs && r.value.email == NormalizeEmail(email)
    ensures r.None? <==> forall i :: 0 <= i < |docs| ==> docs[i].email != NormalizeEmail(email)
  {
    FindFirstWithEmail(docs, NormalizeEmail(email))
  }

  /** Looking up a key no earlier document holds finds the appended document or nothing. */
  lemma {:induction false} FindFirstAppend(docs: seq<UserDoc>, d: UserDoc, key: string)
    requires FindFirstWithEmail(docs, key).None?
    ensures FindFirstWithEmail(docs + [d], key) == if d.email == key then Some(d) else None
  {
    if docs != [] {
      assert (docs + [d])[1..] == docs[1..] + [d];
      FindFirstAppend(docs[1..], d, key);
    }
  }

  /** The unique index on `email`. */
  predicate UniqueEmails(docs: seq<UserDoc>) {
    forall i, j :: 0 <= i < j < |docs| ==> docs[i].email != docs[j].email
  }

  /** The unique index on `_id`. */
  predicate UniqueIds(docs: seq<UserDoc>) {
    forall i, j :: 0 <= i < j < |docs| ==> docs[i].id != docs[j].id
  }

  /** Inserting `d` would violate one of the unique indexes. */
  predicate Conflicts(docs: seq<UserDoc>, d: UserDoc) {
    exists i :: 0 <= i < |docs| && (docs[i].id == d.id || docs[i].email == d.email)
  }

  predicate HasRequiredFields(req: RegisterRequest) {
    Provided(req.name) && Provided(req.email) && Provided(req.password)
  }

  /** The document `new User({...})` builds from a register request. */
  function NewDocument(req: RegisterRequest, newId: string): UserDoc
    requires HasRequiredFields(req)
  {
    Cast(newId, req.name.value, req.email.value, OrEmpty(req.phone), req.password.value,
         if req.emergencyContacts.Some? then req.emergencyContacts.value else [])
  }

  /** The document as `save()` writes it: validated, then the password hashed by the pre-save hook. */
  function SavedDocument(req: RegisterRequest, newId: string, hash: string -> string): (d: UserDoc)
    requires HasRequiredFields(req)
    ensures d.id == newId
    ensures d.email == NormalizeEmail(req.email.value)
    ensures d.password == hash(req.password.value)
    ensures !Provided(req.phone) ==> d.phone == ""
    ensures req.emergencyContacts.None? ==> d.emergencyContacts == []
  {
    var d := NewDocument(req, newId);
    d.(password := HookedPassword(d.password, true, hash))
  }

  datatype RegisterResult = RegisterResult(response: Response, docs: seq<UserDoc>)

  /**
   * POST /register as a function of the collection: the response and the
   * collection afterwards. A document that fails validation or a unique
   * index makes `save` throw, which the handler answers with 500.
   */
  function Registered(docs: seq<UserDoc>, req: RegisterRequest, newId: string, hash: string -> string)
    : (r: RegisterResult)
    ensures r.response.status in {201, 400, 500}
    ensures r.response.status != 201 ==> r.docs == docs && r.response.user.None?
    ensures r.response.status == 201 ==> |r.docs| == |docs| + 1 && r.docs[..|docs|] == docs
  {
    if !HasRequiredFields(req) then
      RegisterResult(MissingRegisterFields, docs)
    else if FindByEmail(docs, req.email.value).Some? then
      RegisterResult(UserExists, docs)
    else if !Admissible(NewDocument(req, newId)) then
      RegisterResult(RegisterServerError, docs)
    else
      var saved := SavedDocument(req, newId, hash);
      if Conflicts(docs, saved) then
        RegisterResult(RegisterServerError, docs)
      else
        var r := RegisterResult(
          Response(201, "User registered successfully", Some(saved.id), Some(Public(saved))),
          docs + [saved]);
        assert r.docs[..|docs|] == docs;
        r
  }

  /** A missing name, email or password is answered with 400 and the collection is untouched. */
  lemma RegisterMissingField(docs: seq<UserDoc>, req: RegisterRequest, newId: string, hash: string -> string)
    requires !HasRequiredFields(req)
    ensures Registered(docs, req, newId, hash) == RegisterResult(MissingRegisterFields, docs)
  {
  }

  /** An email that is already stored (after normalisation) is answered with 400 and the collection is untouched. */
  lemma RegisterDuplicateEmail(docs: seq<UserDoc>, req: RegisterRequest, newId: string, hash: string -> string,
                               i: nat)
    requires HasRequiredFields(req)
    requires i < |docs| && docs[i].email == NormalizeEmail(req.email.value)
    ensures Registered(docs, req, newId, hash) == RegisterResult(UserExists, docs)
  {
    assert FindByEmail(docs, req.email.value).Some?;
  }

  /**
   * A successful registration appends exactly one document: normalised
   * email, hashed password of at least the minimum length, phone and
   * contacts defaulted when absent; the response carries that document
   * without its password.
   */
  lemma RegisterSuccess(docs: seq<UserDoc>, req: RegisterRequest, newId: string, hash: string -> string)
    requires Registered(docs, req, newId, hash).response.status == 201
    ensures HasRequiredFields(req)
    ensures var r := Registered(docs, req, newId, hash);
      var d := r.docs[|docs|];
      && r.docs == docs + [d]
      && !Conflicts(docs, d)
      && FindByEmail(docs, req.email.value).None?
      && d.id == newId
      && d.email == NormalizeEmail(req.email.value)
      && d.password == hash(req.password.value) && |req.password.value| >= MinPasswordLength
      && (!Provided(req.phone) ==> d.phone == "")
      && (req.emergencyContacts.None? ==> d.emergencyContacts == [])
      && r.response == Response(201, "User registered successfully", Some(newId), Some(Public(d)))
  {
  }

  lemma AppendKeepsIndexes(docs: seq<UserDoc>, d: UserDoc)
    requires UniqueEmails(docs) && UniqueIds(docs)
    requires !Conflicts(docs, d)
    ensures UniqueEmails(docs + [d]) && UniqueIds(docs + [d])
  {
    forall i | 0 <= i < |docs|
      ensures docs[i].email != d.email && docs[i].id != d.id
    {
    }
  }

  /** Registration keeps both unique indexes. */
  lemma RegisterKeepsIndexes(docs: seq<UserDoc>, req: RegisterRequest, newId: string, hash: string -> string)
    requires UniqueEmails(docs) && UniqueIds(docs)
    ensures UniqueEmails(Registered(docs, req, newId, hash).docs)
    ensures UniqueIds(Registered(docs, req, newId, hash).docs)
  {
    var r := Registered(docs, req, newId, hash);
    if r.response.status == 201 {
      RegisterSuccess(docs, req, newId, hash);
      AppendKeepsIndexes(docs, r.docs[|docs|]);
    }
  }

  /** POST /login as a function of the collection; it never changes the collection. */
  function Login(docs: seq<UserDoc>, req: LoginRequest, compare: (string, string) -> bool): (resp: Response)
    ensures resp.status == 200 || resp.status == 400
    ensures resp.status == 200 <==>
      && Provided(req.email) && Provided(req.password)
      && FindByEmail(docs, req.email.value).Some?
      && compare(req.password.value, FindByEmail(docs, req.email.value).value.password)
    ensures resp.status == 200 ==>
      var d := FindByEmail(docs, req.email.value).value;
      resp.user == Some(Public(d)) && resp.token == Some(d.id)
    ensures resp.status == 400 ==> resp.user.None? && resp.token.None?
    ensures Provided(req.email) && Provided(req.password) && resp.status == 400 ==>
      resp == InvalidCredentials
  {
    if !Provided(req.email) || !Provided(req.password) then
      MissingLoginFields
    else
      var found := FindByEmail(docs, req.email.value);
      if found.None? then
        InvalidCredentials
      else if !compare(req.password.value, found.value.password) then
        InvalidCredentials
      else
        Response(200, "Login successful", Some(found.value.id), Some(Public(found.value)))
  }

  /**
   * Registering and then logging in with the same email and password
   * succeeds and returns the user that registration returned, provided
   * bcrypt's comparison accepts a password against its own hash.
   */
  lemma RegisterThenLogin(docs: seq<UserDoc>, req: RegisterRequest, newId: string,
                          hash: string -> string, compare: (string, string) -> bool)
    requires Sound(hash, compare)
    requires Registered(docs, req, newId, hash).response.status == 201
    ensures var r := Registered(docs, req, newId, hash);
      Login(r.docs, LoginRequest(req.email, req.password), compare)
        == Response(200, "Login successful", Some(newId), r.response.user)
  {
    var r := Registered(docs, req, newId, hash);
    RegisterSuccess(docs, req, newId, hash);
    var d := r.docs[|docs|];
    FindFirstAppend(docs, d, NormalizeEmail(req.email.value));
    assert compare(req.password.value, hash(req.password.value));
  }

  /**
   * The user collection, which `user.save()` appends to. `Valid` is the pair
   * of unique indexes.
   */
  class UserCollection {
    var docs: seq<UserDoc>

    ghost predicate Valid()
      reads this
    {
      UniqueEmails(docs) && UniqueIds(docs)
    }

    constructor ()
      ensures Valid() && docs == []
    {
      docs := [];
    }

    /** The insert of `save()`: refused when a unique index would be violated. */
    method Insert(d: UserDoc) returns (ok: bool)
      requires Valid()
      modifies this
      ensures Valid()
      ensures ok == !Conflicts(old(docs), d)
      ensures docs == if ok then old(docs) + [d] else old(docs)
    {
      ok := !Conflicts(docs, d);
      if ok {
        docs := docs + [d];
      }
    }

    /** POST /register: validation, duplicate check, `new User`, `save()`. */
    method Register(req: RegisterRequest, newId: string, hash: string -> string) returns (resp: Response)
      requires Valid()
      modifies this
      ensures Valid()
      ensures RegisterResult(resp, docs) == Registered(old(docs), req, newId, hash)
    {
      if !Provided(req.name) || !Provided(req.email) || !Provided(req.password) {
        return MissingRegisterFields;
      }
      var existing := FindByEmail(docs, req.email.value);
      if existing.Some? {
        return UserExists;
      }
      var doc := new UserDocument(newId, req.name.value, req.email.value, OrEmpty(req.phone),
                                  req.password.value,
                                  if req.emergencyContacts.Some? then req.emergencyContacts.value else []);
      var errors := doc.Save(hash);
      ViolationsEmptyIff(NewDocument(req, newId));
      if errors != {} {
        return RegisterServerError;
      }
      var saved := doc.Value();
      var ok := Insert(saved);
      if !ok {
        return RegisterServerError;
      }
      resp := Response(201, "User registered successfully", Some(saved.id), Some(Public(saved)));
    }

    /**
     * POST /login: the field check, `findOne({ email })`, then the loaded
     * document's `comparePassword`. The collection is only read.
     */
    method HandleLogin(req: LoginRequest, compare: (string, string) -> bool) returns (resp: Response)
      ensures resp == Login(docs, req, compare)
    {
      if !Provided(req.email) || !Provided(req.password) {
        return MissingLoginFields;
      }
      var found := FindByEmail(docs, req.email.value);
      if found.None? {
        return InvalidCredentials;
      }
      var user := new UserDocument.Hydrated(found.value);
      var isMatch := user.ComparePassword(req.password.value, compare);
      if !isMatch {
        return InvalidCredentials;
      }
      resp := Response(200, "Login successful", Some(user.id), Some(Public(found.value)));
    }
  }
}
