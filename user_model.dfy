/**
 * The User schema of backend/models/User.js: the setters that normalise a
 * document when it is built (trim, lowercase), the validators that `save`
 * runs (required paths, minimum password length), the pre-save hook that
 * hashes the password only when it was modified, and `comparePassword`.
 *
 * bcrypt is not modelled: hashing and comparing are the uninterpreted
 * functions `hash` and `compare`, related only by `Sound` where a property
 * needs it.
 */
module UserModel {
  import opened Js
  import Text

  const MinPasswordLength: nat := 6

  /** One entry of `emergencyContacts`; an empty `email` also stands for a missing one. */
  datatype Contact = Contact(email: string, name: Option<string>)

  /** The stored fields of a user document (`createdAt` is a clock reading and is left out). */
  datatype UserDoc = UserDoc(
    id: string,
    name: string,
    email: string,
    phone: string,
    password: string,
    emergencyContacts: seq<Contact>)

  /** bcrypt's promise: a password matches its own hash. */
  ghost predicate Sound(hash: string -> string, compare: (string, string) -> bool) {
    forall p {:trigger hash(p)} :: compare(p, hash(p))
  }

  predicate HasUpper(s: string) {
    exists i :: 0 <= i < |s| && 'A' <= s[i] <= 'Z'
  }

  /** The `lowercase` and `trim` setters of an email path. */
  function NormalizeEmail(s: string): (r: string)
    ensures r == Text.Trim(Text.ToLower(s))
    ensures Text.Trimmed(r) && !HasUpper(r)
    ensures |r| <= |s|
  {
    var lower := Text.ToLower(s);
    assert forall c :: c in lower ==> !('A' <= c <= 'Z');
    var r := Text.Trim(lower);
    assert forall i :: 0 <= i < |r| ==> r[i] in r;
    r
  }

  lemma ToLowerOfLower(s: string)
    requires !HasUpper(s)
    ensures Text.ToLower(s) == s
  {
  }

  lemma TrimOfTrimmed(s: string)
    requires Text.Trimmed(s)
    ensures Text.Trim(s) == s
  {
    Text.TrimStartOfTrimmed(s);
    Text.TrimEndOfTrimmed(s);
  }

  /** Normalising an already normalised email changes nothing. */
  lemma NormalizeEmailIdempotent(s: string)
    ensures NormalizeEmail(NormalizeEmail(s)) == NormalizeEmail(s)
  {
    var t := NormalizeEmail(s);
    ToLowerOfLower(t);
    TrimOfTrimmed(t);
  }

  /** The setters of a contact sub-document: email lowercased and trimmed, name trimmed. */
  function CastContact(c: Contact): (r: Contact)
    ensures r.email == NormalizeEmail(c.email)
    ensures r.name.Some? <==> c.name.Some?
    ensures r.name.Some? ==> r.name.value == Text.Trim(c.name.value) && Text.Trimmed(r.name.value)
  {
    Contact(NormalizeEmail(c.email), if c.name.Some? then Some(Text.Trim(c.name.value)) else None)
  }

  function CastContacts(cs: seq<Contact>): (rs: seq<Contact>)
    ensures |rs| == |cs|
    ensures forall i :: 0 <= i < |cs| ==> rs[i] == CastContact(cs[i])
  {
    seq(|cs|, i requires 0 <= i < |cs| => CastContact(cs[i]))
  }

  /** `new User({...})`: every string path goes through its setters; the password does not. */
  function Cast(id: string, name: string, email: string, phone: string, password: string,
                contacts: seq<Contact>): (d: UserDoc)
    ensures d.id == id && d.password == password
    ensures d.name == Text.Trim(name) && d.phone == Text.Trim(phone)
    ensures d.email == NormalizeEmail(email)
    ensures d.emergencyContacts == CastContacts(contacts)
  {
    UserDoc(id, Text.Trim(name), NormalizeEmail(email), Text.Trim(phone), password, CastContacts(contacts))
  }

  datatype Path = NamePath | EmailPath | PasswordPath | ContactEmailPath(index: nat)
  datatype Violation = Required(path: Path) | MinLength(path: Path)

  /** The password path's validators: `required` first, then `minlength`; the first failure is reported. */
  function PasswordViolations(p: string): set<Violation> {
    if p == "" then {Required(PasswordPath)}
    else if |p| < MinPasswordLength then {MinLength(PasswordPath)}
    else {}
  }

  function ContactViolations(cs: seq<Contact>): set<Violation> {
    set i | 0 <= i < |cs| && cs[i].email == "" :: Required(ContactEmailPath(i))
  }

  /** What `validate` reports for a document (a required string path rejects ""). */
  function Violations(d: UserDoc): set<Violation> {
    (if d.name == "" then {Required(NamePath)} else {})
    + (if d.email == "" then {Required(EmailPath)} else {})
    + PasswordViolations(d.password)
    + ContactViolations(d.emergencyContacts)
  }

  /** The documents `validate` accepts: required paths non-empty, password long enough. */
  predicate Admissible(d: UserDoc) {
    && d.name != ""
    && d.email != ""
    && |d.password| >= MinPasswordLength
    && forall i :: 0 <= i < |d.emergencyContacts| ==> d.emergencyContacts[i].email != ""
  }

  /** Validation reports nothing exactly for the admissible documents. */
  lemma ViolationsEmptyIff(d: UserDoc)
    ensures Violations(d) == {} <==> Admissible(d)
  {
    if exists i :: 0 <= i < |d.emergencyContacts| && d.emergencyContacts[i].email == "" {
      var i :| 0 <= i < |d.emergencyContacts| && d.emergencyContacts[i].email == "";
      assert Required(ContactEmailPath(i)) in Violations(d);
    }
  }

  /** The effect of the pre-save hook on a document's stored password. */
  function HookedPassword(password: string, modified: bool, hash: string -> string): (p: string)
    ensures modified ==> p == hash(password)
    ensures !modified ==> p == password
  {
    if modified then hash(password) else password
  }

  /** Under `Sound`, a password that went through the hook is accepted against what the hook stored. */
  lemma HookedPasswordVerifies(password: string, modified: bool, hash: string -> string,
                               compare: (string, string) -> bool)
    requires Sound(hash, compare) && modified
    ensures compare(password, HookedPassword(password, modified, hash))
  {
  }

  /**
   * A user document as mongoose holds it while it is being saved: its paths
   * and whether the password path has been modified since the last save.
   */
  class UserDocument {
    var id: string
    var name: string
    var email: string
    var phone: string
    var password: string
    var emergencyContacts: seq<Contact>
    var passwordModified: bool

    function Value(): UserDoc
      reads this
    {
      UserDoc(id, name, email, phone, password, emergencyContacts)
    }

    /** A new document: the setters run and, being new, every path counts as modified. */
    constructor (id: string, name: string, email: string, phone: string, password: string,
                 contacts: seq<Contact>)
      ensures Value() == Cast(id, name, email, phone, password, contacts)
      ensures passwordModified
    {
      var d := Cast(id, name, email, phone, password, contacts);
      this.id, this.name, this.email, this.phone := d.id, d.name, d.email, d.phone;
      this.password, this.emergencyContacts := d.password, d.emergencyContacts;
      this.passwordModified := true;
    }

    /** A document as `findOne` or `findById` loads it: the stored paths as they are, nothing modified. */
    constructor Hydrated(d: UserDoc)
      ensures Value() == d && !passwordModified
    {
      id, name, email, phone := d.id, d.name, d.email, d.phone;
      password, emergencyContacts := d.password, d.emergencyContacts;
      passwordModified := false;
    }

    /** The pre('save') hook: hash the password in place only if it was modified. */
    method PreSave(hash: string -> string)
      modifies this`password
      ensures password == HookedPassword(old(password), passwordModified, hash)
    {
      if !passwordModified {
        return;
      }
      password := hash(password);
    }

    /**
     * `save()`: validation runs first, on the password as given; on success
     * the hook runs and the modified state is reset. A rejected document is
     * left as it was.
     */
    method Save(hash: string -> string) returns (errors: set<Violation>)
      modifies this
      ensures errors == Violations(old(Value()))
      ensures errors != {} ==> Value() == old(Value()) && passwordModified == old(passwordModified)
      ensures errors == {} ==>
        Value() == old(Value()).(password := HookedPassword(old(password), old(passwordModified), hash))
      ensures errors == {} ==> !passwordModified
    {
      errors := Violations(Value());
      if errors != {} {
        return;
      }
      PreSave(hash);
      passwordModified := false;
    }

    /** `comparePassword(candidate)`: bcrypt's comparison against the stored hash. */
    function ComparePassword(candidate: string, compare: (string, string) -> bool): (ok: bool)
      reads this
      ensures ok == compare(candidate, password)
    {
      compare(candidate, password)
    }
  }

  /**
   * A user built with `new User`, saved, loaded again and asked
   * `comparePassword` with the plaintext it was built with: when `save`
   * accepted the document, the comparison succeeds, given only `Sound`.
   */
  method SaveLoadCompare(id: string, name: string, email: string, phone: string, password: string,
                         contacts: seq<Contact>, hash: string -> string, compare: (string, string) -> bool)
    returns (errors: set<Violation>, ok: bool)
    requires Sound(hash, compare)
    ensures errors == Violations(Cast(id, name, email, phone, password, contacts))
    ensures errors == {} ==> ok
  {
    var doc := new UserDocument(id, name, email, phone, password, contacts);
    errors := doc.Save(hash);
    var stored := new UserDocument.Hydrated(doc.Value());
    ok := stored.ComparePassword(password, compare);
    if errors == {} {
      HookedPasswordVerifies(password, true, hash, compare);
    }
  }
}
