/**
 * backend/routes/sos.js: `POST /send` fans an SOS alert out to every
 * emergency contact of a user, one email at a time, and reports which
 * contacts were reached; `GET /contacts/:userId` returns the stored list.
 *
 * The email transport (`sendSOSEmail`) is the `Mailer` class: it records
 * every attempted recipient, and what each attempt yields is decided by its
 * environment function `respond` (recipient, attempt number). The user
 * collection is the sequence of stored documents; `findById` is the first
 * document whose id equals the request's `userId`.
 */
module Sos {
  import opened Js
  import opened UserModel
  import Text

  datatype SosRequest = SosRequest(userId: JsValue, latitude: JsValue, longitude: JsValue)

  /**
   * One call of `sendSOSEmail`: it resolves to `{ success: true }` or to
   * `{ success: false, error }`, or it throws (the handler guards against
   * that too).
   */
  datatype SendOutcome = Sent | NotSent(error: string) | Threw(message: string)

  datatype FailedEmail = FailedEmail(email: string, error: string)

  datatype SosResponse =
    | Refused(status: nat, message: string)
    | Report(
        status: nat,
        message: string,
        alertSent: bool,
        emailsSent: nat,
        failedEmails: seq<FailedEmail>,
        totalContacts: nat,
        latitude: JsValue,
        longitude: JsValue,
        mapsLink: string)

  const MissingInput := Refused(400, "User ID and location coordinates are required")
  const UserNotFound := Refused(404, "User not found")
  const NoContacts := Refused(400, "No emergency contacts found. Please add emergency contacts in your profile.")
  const MapsPrefix := "https://www.google.com/maps?q="
  const AllSentMessage := "SOS alert processed successfully"
  const NoneSentMessage := "SOS alert failed: Could not send emails to any contacts"

  /** The email transport. `attempts` lists every recipient it was asked to email, in order. */
  class Mailer {
    const respond: (string, nat) -> SendOutcome
    var attempts: seq<string>

    constructor (respond: (string, nat) -> SendOutcome)
      ensures this.respond == respond && attempts == []
    {
      this.respond := respond;
      attempts := [];
    }

    /** `sendSOSEmail(to, userName, latitude, longitude)`: one delivery attempt. */
    method SendSosEmail(to: string, userName: string, latitude: JsValue, longitude: JsValue)
      returns (r: SendOutcome)
      modifies this
      ensures attempts == old(attempts) + [to]
      ensures r == respond(to, |old(attempts)|)
    {
      r := respond(to, |attempts|);
      attempts := attempts + [to];
    }
  }

  /** `User.findById(userId)`: the first document whose id is `userId`. */
  function FindById(docs: seq<UserDoc>, userId: JsValue): (r: Option<UserDoc>)
    ensures r.Some? ==> r.value in docs && userId == Str(r.value.id)
    ensures r.None? <==> forall i :: 0 <= i < |docs| ==> userId != Str(docs[i].id)
  {
    if docs == [] then None
    else if userId == Str(docs[0].id) then Some(docs[0])
    else FindById(docs[1..], userId)
  }

  /** `findById` returns the earliest document carrying the id. */
  lemma {:induction false} FindByIdFirst(docs: seq<UserDoc>, userId: JsValue, i: nat)
    requires i < |docs| && userId == Str(docs[i].id)
    requires forall j :: 0 <= j < i ==> userId != Str(docs[j].id)
    ensures FindById(docs, userId) == Some(docs[i])
  {
    if i > 0 {
      FindByIdFirst(docs[1..], userId, i - 1);
    }
  }

  /** The text after `?q=` in a maps link: the two coordinates joined by a comma. */
  function MapsQuery(latitude: JsValue, longitude: JsValue, fmt: real -> string): string {
    ToJsString(latitude, fmt) + "," + ToJsString(longitude, fmt)
  }

  function MapsLink(latitude: JsValue, longitude: JsValue, fmt: real -> string): (link: string)
    ensures |link| >= |MapsPrefix| && link[..|MapsPrefix|] == MapsPrefix
    ensures link[|MapsPrefix|..] == MapsQuery(latitude, longitude, fmt)
  {
    MapsPrefix + MapsQuery(latitude, longitude, fmt)
  }

  /**
   * The query of a maps link splits at ',' back into the latitude text and
   * what follows it, as the dashboard splits an `ip`-provider `loc` field.
   */
  lemma MapsQuerySplits(latitude: JsValue, longitude: JsValue, fmt: real -> string)
    requires ',' !in ToJsString(latitude, fmt)
    ensures Text.Split(MapsLink(latitude, longitude, fmt)[|MapsPrefix|..], ',')
         == [ToJsString(latitude, fmt)] + Text.Split(ToJsString(longitude, fmt), ',')
  {
    var lat, lng := ToJsString(latitude, fmt), ToJsString(longitude, fmt);
    assert MapsQuery(latitude, longitude, fmt) == lat + [','] + lng;
    Text.SplitCons(lat, ',', lng);
  }

  function Emails(contacts: seq<Contact>): (r: seq<string>)
    ensures |r| == |contacts|
    ensures forall i :: 0 <= i < |contacts| ==> r[i] == contacts[i].email
  {
    seq(|contacts|, i requires 0 <= i < |contacts| => contacts[i].email)
  }

  /** What the transport yields for each contact when the batch starts at attempt number `start`. */
  function Outcomes(respond: (string, nat) -> SendOutcome, contacts: seq<Contact>, start: nat)
    : (r: seq<SendOutcome>)
    ensures |r| == |contacts|
    ensures forall i :: 0 <= i < |contacts| ==> r[i] == respond(contacts[i].email, start + i)
  {
    seq(|contacts|, i requires 0 <= i < |contacts| => respond(contacts[i].email, start + i))
  }

  /** The number of successful sends. */
  function CountSent(outs: seq<SendOutcome>): (n: nat)
    ensures n <= |outs|
  {
    if outs == [] then 0
    else CountSent(outs[..|outs| - 1]) + (if outs[|outs| - 1].Sent? then 1 else 0)
  }

  /** No success is counted exactly when every send failed, and all are counted exactly when every send succeeded. */
  lemma {:induction false} CountSentExtremes(outs: seq<SendOutcome>)
    ensures CountSent(outs) == 0 <==> forall i :: 0 <= i < |outs| ==> !outs[i].Sent?
    ensures CountSent(outs) == |outs| <==> forall i :: 0 <= i < |outs| ==> outs[i].Sent?
  {
    if outs != [] {
      var n := |outs| - 1;
      CountSentExtremes(outs[..n]);
      assert forall i :: 0 <= i < n ==> outs[..n][i] == outs[i];
    }
  }

  /** The `failedEmails` entry of a failed send: the reported error or the thrown message. */
  function FailureOf(c: Contact, o: SendOutcome): FailedEmail
    requires !o.Sent?
  {
    match o
    case NotSent(e) => FailedEmail(c.email, e)
    case Threw(m) => FailedEmail(c.email, m)
  }

  /** The `failedEmails` list of a batch. */
  function Failures(contacts: seq<Contact>, outs: seq<SendOutcome>): seq<FailedEmail>
    requires |contacts| == |outs|
  {
    if outs == [] then []
    else
      var n := |outs| - 1;
      Failures(contacts[..n], outs[..n]) + (if outs[n].Sent? then [] else [FailureOf(contacts[n], outs[n])])
  }

  /** Every contact is accounted for exactly once: sent plus failed is the number of contacts. */
  lemma {:induction false} SentPlusFailedIsTotal(contacts: seq<Contact>, outs: seq<SendOutcome>)
    requires |contacts| == |outs|
    ensures CountSent(outs) + |Failures(contacts, outs)| == |contacts|
  {
    if outs != [] {
      var n := |outs| - 1;
      SentPlusFailedIsTotal(contacts[..n], outs[..n]);
    }
  }

  /** The failures of a prefix of the batch are a prefix of the failures of the batch. */
  lemma {:induction false} FailuresOfPrefix(contacts: seq<Contact>, outs: seq<SendOutcome>, i: nat)
    requires |contacts| == |outs| && i <= |outs|
    ensures var f := Failures(contacts[..i], outs[..i]);
      |f| <= |Failures(contacts, outs)| && Failures(contacts, outs)[..|f|] == f
    decreases |outs| - i
  {
    if i < |outs| {
      var n := |outs| - 1;
      assert contacts[..n][..i] == contacts[..i];
      assert outs[..n][..i] == outs[..i];
      FailuresOfPrefix(contacts[..n], outs[..n], i);
    } else {
      assert contacts[..i] == contacts && outs[..i] == outs;
    }
  }

  /**
   * `failedEmails` keeps contact order: the entry of a failing contact `i`
   * sits right after the entries of the failing contacts before it, and it
   * names that contact with its error.
   */
  lemma FailureEntry(contacts: seq<Contact>, outs: seq<SendOutcome>, i: nat)
    requires |contacts| == |outs| && i < |outs| && !outs[i].Sent?
    ensures var k := |Failures(contacts[..i], outs[..i])|;
      k < |Failures(contacts, outs)| && Failures(contacts, outs)[k] == FailureOf(contacts[i], outs[i])
  {
    FailuresOfPrefix(contacts, outs, i + 1);
    assert contacts[..i + 1][..i] == contacts[..i];
    assert outs[..i + 1][..i] == outs[..i];
  }

  /** The failing contacts before `i` number exactly `i` minus the successes before it. */
  lemma FailurePosition(contacts: seq<Contact>, outs: seq<SendOutcome>, i: nat)
    requires |contacts| == |outs| && i <= |outs|
    ensures |Failures(contacts[..i], outs[..i])| == i - CountSent(outs[..i])
  {
    SentPlusFailedIsTotal(contacts[..i], outs[..i]);
  }

  /** The overall result the report stands for. */
  datatype Overall = AllSent | PartialSent | NoneSent

  function Classify(sent: nat, failed: nat): Overall {
    if sent == 0 then NoneSent else if failed == 0 then AllSent else PartialSent
  }

  function PartialMessage(sent: nat, total: nat): string {
    "SOS alert partially successful. " + Text.DecimalString(sent) + " of " + Text.DecimalString(total)
      + " emails sent."
  }

  /** Steps 3 and 4 of the handler: the report and its status for a completed batch. */
  function Summarize(user: UserDoc, req: SosRequest, outs: seq<SendOutcome>, fmt: real -> string)
    : (resp: SosResponse)
    requires |outs| == |user.emergencyContacts|
  {
    var contacts := user.emergencyContacts;
    var sent := CountSent(outs);
    var failed := Failures(contacts, outs);
    var base := Report(200, AllSentMessage, sent > 0, sent, failed, |contacts|,
                       req.latitude, req.longitude, MapsLink(req.latitude, req.longitude, fmt));
    if sent == 0 then base.(status := 500, message := NoneSentMessage, alertSent := false)
    else if |failed| > 0 then base.(message := PartialMessage(sent, |contacts|))
    else base
  }

  /** POST /send as a function of the collection and of the transport's answers. */
  function SendSosSpec(docs: seq<UserDoc>, req: SosRequest, respond: (string, nat) -> SendOutcome,
                       start: nat, fmt: real -> string): SosResponse
  {
    if !Truthy(req.userId) || !Truthy(req.latitude) || !Truthy(req.longitude) then MissingInput
    else
      match FindById(docs, req.userId)
      case None => UserNotFound
      case Some(user) =>
        if |user.emergencyContacts| == 0 then NoContacts
        else Summarize(user, req, Outcomes(respond, user.emergencyContacts, start), fmt)
  }

  /** The recipients POST /send emails: every contact, in stored order, once each; or nobody. */
  function AttemptsFor(docs: seq<UserDoc>, req: SosRequest): seq<string> {
    if !Truthy(req.userId) || !Truthy(req.latitude) || !Truthy(req.longitude) then []
    else
      match FindById(docs, req.userId)
      case None => []
      case Some(user) => Emails(user.emergencyContacts)
  }

  /** How the log, the count and the failures of a batch grow with one more contact. */
  lemma BatchStep(contacts: seq<Contact>, outs: seq<SendOutcome>, i: nat)
    requires |contacts| == |outs| && i < |outs|
    ensures Emails(contacts[..i + 1]) == Emails(contacts[..i]) + [contacts[i].email]
    ensures CountSent(outs[..i + 1]) == CountSent(outs[..i]) + (if outs[i].Sent? then 1 else 0)
    ensures Failures(contacts[..i + 1], outs[..i + 1])
         == Failures(contacts[..i], outs[..i]) + (if outs[i].Sent? then [] else [FailureOf(contacts[i], outs[i])])
  {
    assert outs[..i + 1][..i] == outs[..i];
    assert contacts[..i + 1][..i] == contacts[..i];
  }

  /** POST /send. */
  method SendSos(docs: seq<UserDoc>, req: SosRequest, mailer: Mailer, fmt: real -> string)
    returns (resp: SosResponse)
    modifies mailer
    ensures mailer.attempts == old(mailer.attempts) + AttemptsFor(docs, req)
    ensures resp == SendSosSpec(docs, req, mailer.respond, |old(mailer.attempts)|, fmt)
  {
    if !Truthy(req.userId) || !Truthy(req.latitude) || !Truthy(req.longitude) {
      return MissingInput;
    }
    var found := FindById(docs, req.userId);
    if found.None? {
      return UserNotFound;
    }
    var user := found.value;
    var contacts := user.emergencyContacts;
    if |contacts| == 0 {
      return NoContacts;
    }
    var mapsLink := MapsLink(req.latitude, req.longitude, fmt);
    var emailsSent := 0;
    var failedEmails := [];
    ghost var start := |mailer.attempts|;
    ghost var outs := Outcomes(mailer.respond, contacts, start);
    for i := 0 to |contacts|
      invariant mailer.attempts == old(mailer.attempts) + Emails(contacts[..i])
      invariant emailsSent == CountSent(outs[..i])
      invariant failedEmails == Failures(contacts[..i], outs[..i])
    {
      var contact := contacts[i];
      var result := mailer.SendSosEmail(contact.email, user.name, req.latitude, req.longitude);
      assert result == outs[i];
      BatchStep(contacts, outs, i);
      match result
      case Sent =>
        emailsSent := emailsSent + 1;
      case NotSent(error) =>
        failedEmails := failedEmails + [FailedEmail(contact.email, error)];
      case Threw(message) =>
        failedEmails := failedEmails + [FailedEmail(contact.email, message)];
    }
    assert outs[..|contacts|] == outs && contacts[..|contacts|] == contacts;
    resp := Report(200, AllSentMessage, emailsSent > 0, emailsSent, failedEmails, |contacts|,
                   req.latitude, req.longitude, mapsLink);
    if emailsSent == 0 {
      return resp.(status := 500, message := NoneSentMessage, alertSent := false);
    }
    if |failedEmails| > 0 {
      resp := resp.(message := PartialMessage(emailsSent, |contacts|));
    }
  }

  /** A request is refused (400 or 404) exactly when no email is attempted. */
  lemma RefusedIffNoAttempt(docs: seq<UserDoc>, req: SosRequest, respond: (string, nat) -> SendOutcome,
                            start: nat, fmt: real -> string)
    ensures SendSosSpec(docs, req, respond, start, fmt).Refused? <==> AttemptsFor(docs, req) == []
    ensures SendSosSpec(docs, req, respond, start, fmt).Refused? ==>
      SendSosSpec(docs, req, respond, start, fmt).status in {400, 404}
  {
    if Truthy(req.userId) && Truthy(req.latitude) && Truthy(req.longitude) {
      var found := FindById(docs, req.userId);
      if found.Some? && |found.value.emergencyContacts| > 0 {
        assert AttemptsFor(docs, req)[0] == found.value.emergencyContacts[0].email;
      }
    }
  }

  /** A coordinate equal to 0 counts as missing: such a request is refused with 400 and nobody is emailed. */
  lemma ZeroCoordinateRefused(docs: seq<UserDoc>, req: SosRequest, respond: (string, nat) -> SendOutcome,
                              start: nat, fmt: real -> string)
    requires req.latitude == Num(0.0) || req.longitude == Num(0.0)
    ensures SendSosSpec(docs, req, respond, start, fmt) == MissingInput
    ensures AttemptsFor(docs, req) == []
  {
  }

  /** An existing user without contacts gets 400; an unknown user gets 404. */
  lemma LookupFailures(docs: seq<UserDoc>, req: SosRequest, respond: (string, nat) -> SendOutcome,
                       start: nat, fmt: real -> string)
    requires Truthy(req.userId) && Truthy(req.latitude) && Truthy(req.longitude)
    ensures FindById(docs, req.userId).None? ==> SendSosSpec(docs, req, respond, start, fmt) == UserNotFound
    ensures FindById(docs, req.userId).Some? && FindById(docs, req.userId).value.emergencyContacts == [] ==>
      SendSosSpec(docs, req, respond, start, fmt) == NoContacts
  {
  }

  /**
   * Any report: every contact counted once, `alertSent` exactly when some
   * email went out, 500 exactly when none did, and the message of the
   * overall result.
   */
  lemma ReportInvariants(user: UserDoc, req: SosRequest, outs: seq<SendOutcome>, fmt: real -> string)
    requires |outs| == |user.emergencyContacts|
    ensures var r := Summarize(user, req, outs, fmt);
      && r.Report?
      && r.emailsSent + |r.failedEmails| == r.totalContacts == |user.emergencyContacts|
      && (r.alertSent <==> r.emailsSent > 0)
      && (r.status == 500 <==> r.emailsSent == 0)
      && (r.status != 500 ==> r.status == 200)
      && r.message == match Classify(r.emailsSent, |r.failedEmails|)
                      case NoneSent => NoneSentMessage
                      case AllSent => AllSentMessage
                      case PartialSent => PartialMessage(r.emailsSent, r.totalContacts)
  {
    SentPlusFailedIsTotal(user.emergencyContacts, outs);
  }

  /** Three contacts, the second one fails: a partial success that names the second contact. */
  lemma ThreeContactsOneFails(user: UserDoc, req: SosRequest, fmt: real -> string)
    requires |user.emergencyContacts| == 3
    ensures var outs := [Sent, NotSent("rejected"), Sent];
      var r := Summarize(user, req, outs, fmt);
      && r.status == 200 && r.alertSent && r.emailsSent == 2 && r.totalContacts == 3
      && r.failedEmails == [FailedEmail(user.emergencyContacts[1].email, "rejected")]
      && Classify(r.emailsSent, |r.failedEmails|) == PartialSent
  {
    var outs := [Sent, NotSent("rejected"), Sent];
    var cs := user.emergencyContacts;
    assert outs[..2][..1] == outs[..1] == [Sent];
    assert outs[..2] == [Sent, NotSent("rejected")];
    assert outs[..1][..0] == [];
    assert CountSent(outs[..1]) == 1;
    assert CountSent(outs[..2]) == 1;
    assert CountSent(outs) == 2;
    assert cs[..1][..0] == [];
    assert Failures(cs[..1], outs[..1]) == [];
    assert cs[..2][..1] == cs[..1];
    assert Failures(cs[..2], outs[..2]) == [FailedEmail(cs[1].email, "rejected")];
    assert Failures(cs, outs) == [FailedEmail(cs[1].email, "rejected")];
  }

  datatype ContactsResponse = ContactsNotFound | Contacts(emergencyContacts: seq<Contact>)

  /** GET /contacts/:userId: 404 for an unknown user, otherwise the stored list as it is. */
  function GetContacts(docs: seq<UserDoc>, userId: string): (r: ContactsResponse)
    ensures r.ContactsNotFound? <==> forall i :: 0 <= i < |docs| ==> docs[i].id != userId
    ensures r.Contacts? ==> exists i :: 0 <= i < |docs| && docs[i].id == userId
                               && r.emergencyContacts == docs[i].emergencyContacts
  {
    match FindById(docs, Str(userId))
    case None => ContactsNotFound
    case Some(user) => Contacts(user.emergencyContacts)
  }
}
