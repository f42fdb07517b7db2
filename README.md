# Women Security App — a Dafny model of its core

This project models the logic of a small personal-safety web application and proves properties of it:

- **SOS fan-out** (`POST /sos/send`): the request is validated and the user looked up. One email is attempted per emergency contact, in stored order, and each failure is caught on its own. Successes are counted and failures collected, and the result becomes a 400, 404, 500 or 200 report. `GET /sos/contacts/:userId` returns the stored list.
- **Location resolution on the Dashboard**: the page tries GPS first. After a GPS error, or without geolocation, it runs a cascade over three IP-geolocation providers. Two reply shapes are accepted (`{latitude, longitude}` and `{loc: "a,b"}`). `confirmSOS` sends a fresh fix, else the stored location, else nothing. The location and nearby-help dialogs open only once a location is stored.
- **Accounts**: registration and login over the user collection. The User schema's normalisation (trim, lowercase) and validation (required paths, minimum password length, unique email) are modelled, with the pre-save hook that hashes the password only when it was modified, and `comparePassword`.
- **Client forms**: the Signup and Login pages. This covers their ordered checks, the emergency-contact list Signup builds, the error, call and navigation effects of submitting, and `handleChange`.
- **Route guard**: the route table and `ProtectedRoute` map a pathname and the authentication flag to a page or a redirect.

Modules: `Js` (truthiness, `||`, template-literal conversion), `Text` (ECMAScript `trim`, ASCII `toLowerCase`, `split`, decimal printing), `UserModel`, `Auth`, `Sos`, `Location` (pure location logic), `Dashboard` (the page's state), `Signup`, `Login`, `Routes`.

Where the code and its documentation disagree, the model follows the code:

- A user whose contact list is empty gets **400**, not 404.
- Coordinates are only tested for truthiness, so a coordinate of 0 is rejected as missing. There is no latitude or longitude range check.
- The location cascade has no cancellation or generation token. A provider reply with a non-2xx status is parsed like any other body, because `fetch` does not reject it.
- A validation failure at `save()` (a blank name once trimmed, say) is answered with **500** "Server error during registration", not with a validation message.

The environment is a parameter everywhere:

- The GPS result, each provider's reply, the transport's answer for each email, and whether an API call succeeds.
- `parseFloat`, number formatting, bcrypt's `hash` and `compare`.
- The id MongoDB assigns to a new document.

The user collection is a sequence of documents in insertion order. `findOne` and `findById` return the first match.

## Model

| member | source | states |
|---|---|---|
| `Js.Or` | frontend/src/pages/Dashboard.js:129 | JavaScript's value-returning or is truthy iff either operand is; it yields the left operand when that is truthy and the right one otherwise |
| `Text.Trim` | backend/models/User.js:9 | the result has no leading or trailing ECMAScript whitespace, is no longer than the input, and uses only the input's characters; `TrimIsSlice` and `TrimOfSlice` pin down which string it is |
| `Text.TrimIsSlice` | backend/models/User.js:9 | the trimmed string is the slice of the input left once the leading and the trailing whitespace are dropped |
| `Text.TrimOfSlice` | backend/models/User.js:9 | conversely, any slice with only whitespace outside it and none at its ends is the trimmed string, so the result is unique |
| `Text.TrimIdempotent` | backend/models/User.js:9 | trimming twice equals trimming once |
| `Text.TrimAllWhitespace` | backend/models/User.js:6-10 | a string made only of whitespace trims to "" |
| `Text.ToLower` | backend/models/User.js:15 | same length; each character is lowered on its own, and lowered characters are never upper-case ASCII |
| `Text.ToLowerIdempotent` | backend/models/User.js:15 | lowering twice equals lowering once |
| `Text.Split` | frontend/src/pages/Dashboard.js:138 | at least one part, and no part contains the separator |
| `Text.SplitCons` | frontend/src/pages/Dashboard.js:138 | a string `a + sep + b` with no separator in `a` splits into `a` followed by the parts of `b` |
| `Text.SplitJoin` | frontend/src/pages/Dashboard.js:138 | splitting the join of separator-free parts gives the parts back |
| `Text.JoinSplit` | frontend/src/pages/Dashboard.js:138 | joining the parts of a split gives the string back |
| `Text.DecimalString` | backend/routes/sos.js:81 | a count prints as a non-empty run of digits with no leading zero except for 0 |
| `Text.DecimalRoundTrip` | backend/routes/sos.js:81 | reading the printed count back gives the count |
| `Text.DecimalStringInjective` | backend/routes/sos.js:81 | different counts print differently |
| `UserModel.NormalizeEmail` | backend/models/User.js:11-17 | a stored email is the input lower-cased and then trimmed: it has no surrounding whitespace, no upper-case ASCII letter, and is no longer than the input |
| `UserModel.NormalizeEmailIdempotent` | backend/models/User.js:15-16 | normalising an already stored email changes nothing, so query filters and stored values agree |
| `UserModel.CastContact` | backend/models/User.js:27-38 | a contact's email is normalised; its name, when present, is the input name trimmed, and stays absent otherwise |
| `UserModel.CastContacts` | backend/models/User.js:27-38 | the contact list keeps its length and order, each entry cast on its own |
| `UserModel.Cast` | backend/models/User.js:5-43 | `new User` trims name and phone, normalises the email and the contacts, and keeps id and password as given |
| `UserModel.ViolationsEmptyIff` | backend/models/User.js:6-38 | validation reports nothing iff name and email are non-empty, the password has at least 6 characters and every contact email is non-empty |
| `UserModel.HookedPassword` | backend/models/User.js:46-59 | a modified password is replaced by its hash; an unmodified one is stored unchanged |
| `UserModel.HookedPasswordVerifies` | backend/models/User.js:46-64 | if bcrypt accepts a password against its own hash, a password that went through the hook is accepted against what the hook stored |
| `UserModel.UserDocument.constructor` | backend/models/User.js:5-43 | a new document holds the cast fields and its password counts as modified |
| `UserModel.UserDocument.Hydrated` | backend/routes/auth.js:84 | a document loaded by `findOne` holds the stored paths unchanged, with nothing marked modified |
| `UserModel.UserDocument.PreSave` | backend/models/User.js:46-59 | the password is replaced by its hash exactly when it was modified |
| `UserModel.UserDocument.Save` | backend/models/User.js:22-26 | validation runs first, on the plaintext password; a rejected document is unchanged; an accepted one gets the hook's password and is no longer marked modified |
| `UserModel.UserDocument.ComparePassword` | backend/models/User.js:62-64 | bcrypt's comparison of the candidate against the stored hash; `SaveLoadCompare` and `Auth.UserCollection.HandleLogin` state what it means for a saved user and for login |
| `UserModel.SaveLoadCompare` | backend/models/User.js:46-64 | a user built with `new User`, saved, loaded again and asked `comparePassword` with its own plaintext is accepted whenever `save` accepted it, assuming only that bcrypt accepts a password against its own hash; `save` reports exactly the violations of the cast document |
| `Auth.FindFirstWithEmail` | backend/routes/auth.js:28 | the result is a stored document with that email and no earlier document has it, and it is absent exactly when no document has that email |
| `Auth.FindByEmail` | backend/routes/auth.js:28 | the query's email goes through the same setters as the stored one: a found document holds the normalised email, and nothing is found exactly when no document holds it |
| `Auth.FindFirstAppend` | backend/routes/auth.js:28 | when no stored document holds the email, after an append the lookup finds the appended document if it holds that email and nothing otherwise |
| `Auth.SavedDocument` | backend/routes/auth.js:36-45 | the saved document has the new id, the normalised email and the hashed password; phone defaults to "" and contacts to [] |
| `Auth.Registered` | backend/routes/auth.js:16-69 | the status is 201, 400 or 500; every non-201 answer leaves the collection unchanged and carries no user; 201 appends exactly one document and keeps the rest |
| `Auth.RegisterMissingField` | backend/routes/auth.js:21-25 | a missing or empty name, email or password gives 400 with the fixed message and no change |
| `Auth.RegisterDuplicateEmail` | backend/routes/auth.js:28-33 | an email already stored, after normalisation, gives 400 "User already exists with this email" and no change |
| `Auth.RegisterSuccess` | backend/routes/auth.js:36-61 | a 201 means the fields were present, the email was new and no index conflicts; the appended document is fully described; the response carries its id as token and its public fields |
| `Auth.AppendKeepsIndexes` | backend/models/User.js:14 | appending a non-conflicting document keeps ids and emails unique |
| `Auth.RegisterKeepsIndexes` | backend/models/User.js:14 | registration never breaks the unique id and email indexes |
| `Auth.Login` | backend/routes/auth.js:72-121 | 200 exactly when both fields are present, the email is found and the password compares; a 200 carries that user and a token; with both fields present every 400 is the same "Invalid email or password" response; the collection is an input only |
| `Auth.RegisterThenLogin` | backend/routes/auth.js:45-113 | if bcrypt accepts a password against its own hash, logging in right after registering succeeds and returns the user registration returned |
| `Auth.UserCollection.constructor` | backend/models/User.js:14 | an empty collection satisfies both unique indexes |
| `Auth.UserCollection.Insert` | backend/models/User.js:14 | the insert succeeds exactly when no stored document has the same id or email, and then appends the document |
| `Auth.UserCollection.Register` | backend/routes/auth.js:16-69 | the response and new collection are exactly `Registered` of the old collection, and the indexes stay unique |
| `Auth.UserCollection.HandleLogin` | backend/routes/auth.js:72-121 | the handler, going through `findOne` and the loaded document's `comparePassword`, answers exactly what `Login` states |
| `Sos.Mailer.constructor` | backend/services/emailService.js:67-73 | a fresh transport has made no attempt |
| `Sos.Mailer.SendSosEmail` | backend/services/emailService.js:67-73 | every call records one attempt to that recipient and yields the environment's answer for it |
| `Sos.FindById` | backend/routes/sos.js:19 | the result is a stored document with that id, and it is absent exactly when no document has it |
| `Sos.FindByIdFirst` | backend/routes/sos.js:19 | when several documents carry the id, the earliest one is returned |
| `Sos.MapsLink` | backend/routes/sos.js:31 | the link is the maps prefix followed by latitude, ',' and longitude as the template prints them |
| `Sos.MapsQuerySplits` | backend/routes/sos.js:31 | the query of the link splits at ',' back into the latitude text and the longitude's parts |
| `Sos.Emails` | backend/routes/sos.js:36-39 | one address per contact, in contact order |
| `Sos.Outcomes` | backend/routes/sos.js:36-43 | the answer for contact `i` is the transport's answer for that contact's email at attempt `start + i` |
| `Sos.CountSent` | backend/routes/sos.js:45-46 | the number of successes is at most the number of attempts |
| `Sos.CountSentExtremes` | backend/routes/sos.js:45-46 | the count is zero exactly when every send failed, and equals the number of attempts exactly when every send succeeded |
| `Sos.SentPlusFailedIsTotal` | backend/routes/sos.js:32-64 | `emailsSent + failedEmails.length` equals the number of contacts |
| `Sos.FailuresOfPrefix` | backend/routes/sos.js:48-55 | the failures of the first `i` contacts are a prefix of all failures |
| `Sos.FailureEntry` | backend/routes/sos.js:48-55 | a failing contact's entry comes right after the earlier failures and holds its email with the reported error or thrown message |
| `Sos.FailurePosition` | backend/routes/sos.js:45-55 | the failures before contact `i` number `i` minus the successes before it |
| `Sos.SendSos` | backend/routes/sos.js:7-93 | the transport is asked exactly for those recipients, and the response is the specification of the handler for the transport's answers |
| `Sos.RefusedIffNoAttempt` | backend/routes/sos.js:12-29 | a request is refused, with 400 or 404, exactly when no email is attempted |
| `Sos.ZeroCoordinateRefused` | backend/routes/sos.js:12-16 | a latitude or longitude equal to 0 is treated as missing: 400 and no email |
| `Sos.LookupFailures` | backend/routes/sos.js:19-29 | an unknown user gets 404 and a user without contacts gets 400 |
| `Sos.ReportInvariants` | backend/routes/sos.js:58-84 | every contact is counted once; `alertSent` iff some email went out; 500 iff none did, else 200; the message is the all-sent, partial ("X of N emails sent.") or none-sent one |
| `Sos.ThreeContactsOneFails` | backend/routes/sos.js:36-84 | three contacts with the second failing give 200, two sent, and one failure entry for the second contact |
| `Sos.GetContacts` | backend/routes/sos.js:96-107 | 404 exactly when no document has the id; otherwise the stored contact list of that user, unchanged |
| `Location.GpsErrorMessage` | frontend/src/pages/Dashboard.js:70-83 | every GPS warning starts with "Location access issue: " |
| `Location.GpsErrorMessagesDistinct` | frontend/src/pages/Dashboard.js:70-83 | permission denied, unavailable and timeout get three different messages, and every other code gets the fourth |
| `Location.GpsLocation` | frontend/src/pages/Dashboard.js:52-62 | a GPS fix is stored with source gps and the device's coordinates and accuracy |
| `Location.ParseReply` | frontend/src/pages/Dashboard.js:119-157 | a usable reply is an object and yields source ip, accuracy 50000 and as city the first truthy of city and region, else ''; the place shown is the same with 'Unknown' as the last fallback |
| `Location.FieldsTakePrecedence` | frontend/src/pages/Dashboard.js:123-125 | truthy latitude and longitude fields are used, whatever `loc` holds |
| `Location.LocShape` | frontend/src/pages/Dashboard.js:136-140 | without both fields, `loc = "a,b"` is split into latitude `a` and longitude `b` |
| `Location.ShapesAgree` | frontend/src/pages/Dashboard.js:123-150 | `{latitude: a, longitude: b}` and `{loc: "a,b"}` with the same city and region yield the same location |
| `Location.NumericShapesAgree` | frontend/src/pages/Dashboard.js:123-150 | numeric `latitude`/`longitude` fields and a `loc` string of their printed forms yield the same location, since `parseFloat` reads a number through its printed form |
| `Location.UnusableReplies` | frontend/src/pages/Dashboard.js:151-157 | a failed fetch, a null or non-object body, or an object with neither coordinates nor a usable `loc` moves on |
| `Location.TryIpServices` | frontend/src/pages/Dashboard.js:113-158 | the providers queried are consecutive from the starting index and all lie in the list |
| `Location.CascadeOrder` | frontend/src/pages/Dashboard.js:113-158 | at least one provider is queried while any is left and none past the end; every queried provider but the last was unusable; a location is found iff the last one was usable, and it is that reply's |
| `Location.CascadeYieldsIpLocation` | frontend/src/pages/Dashboard.js:124-146 | any location the cascade finds is an ip location with accuracy 50000 |
| `Location.ResolveProperties` | frontend/src/pages/Dashboard.js:49-100 | GPS is queried iff supported; a fix is used as is with no provider queried; otherwise the cascade starts at provider 0; at most three providers, in list order |
| `Location.TimeoutThenSecondProvider` | frontend/src/pages/Dashboard.js:66-160 | GPS timeout, provider 0 failing and provider 1 answering `loc` with a city give that location and city after querying providers 0 and 1 |
| `Location.SosCoordinatesChoice` | frontend/src/pages/Dashboard.js:175-212 | `confirmSOS` sends a fresh fix first, the stored location when GPS fails, and nothing without either or without geolocation |
| `Dashboard.ProviderUrls` | frontend/src/pages/Dashboard.js:107-120 | one fetched URL per queried provider, the one at its index in the list |
| `Dashboard.ResolutionFeedback` | frontend/src/pages/Dashboard.js:64-150 | the first message says how GPS went; the last says "could not determine" exactly when no location was found, and otherwise names the GPS fix or the approximate place |
| `Dashboard.SosFeedback` | frontend/src/pages/Dashboard.js:176-216 | a success message iff a request was made and succeeded; a failure message only after a failed request with the stored location; with no location nothing is sent and the user is told; the handler leaves the spinner running exactly when it never settles |
| `Dashboard.DashboardPage.constructor` | frontend/src/pages/Dashboard.js:36-42 | no location, spinner off, all dialogs closed, nothing requested or shown |
| `Dashboard.DashboardPage.TryIpService` | frontend/src/pages/Dashboard.js:113-158 | fetches exactly the providers the cascade queries, in order; stores the found location or keeps the old one; ends with the approximate-place or failure message |
| `Dashboard.DashboardPage.GetIpBasedLocation` | frontend/src/pages/Dashboard.js:103-161 | announces the approximate lookup, then runs the cascade from provider 0 |
| `Dashboard.DashboardPage.GetCurrentLocation` | frontend/src/pages/Dashboard.js:49-100 | one GPS query with high accuracy, 10000 ms and maximumAge 0 when supported; the providers fetched, location stored and messages shown are those of the resolution; a failed resolution keeps the old location |
| `Dashboard.DashboardPage.HandleSos` | frontend/src/pages/Dashboard.js:167-169 | opens the SOS dialog |
| `Dashboard.DashboardPage.ConfirmSos` | frontend/src/pages/Dashboard.js:171-230 | one GPS query with the 5000 ms options when supported; at most one request, with the chosen coordinates; the dialog closes and the spinner stops only on the settled paths |
| `Dashboard.DashboardPage.HandleViewLocation` | frontend/src/pages/Dashboard.js:232-239 | with a stored location the dialog opens and nothing else changes; without one the dialog stays as it was and a resolution runs |
| `Dashboard.DashboardPage.HandleFindNearby` | frontend/src/pages/Dashboard.js:241-248 | the same rule for the nearby-help dialog |
| `Signup.SignupErrorCases` | frontend/src/pages/Signup.js:52-65 | each message appears exactly when its check is the first to fail; the form passes iff the four required inputs are filled, the passwords match and the password has at least 6 characters |
| `Signup.OptionalInputs` | frontend/src/pages/Signup.js:52-65 | phone and the two contact inputs never change the outcome of the checks |
| `Signup.Filled` | frontend/src/pages/Signup.js:70-75 | the filled entries, no more of them than the input, every one non-empty, and exactly the non-empty ones; `FilledOne` and `FilledAppend` fix their order and repetitions |
| `Signup.FilledOne` | frontend/src/pages/Signup.js:70-75 | one entry is kept exactly when it is filled in |
| `Signup.FilledAppend` | frontend/src/pages/Signup.js:70-75 | filtering two lists one after the other equals filtering their concatenation, so order and repetitions are kept |
| `Signup.AsContacts` | frontend/src/pages/Signup.js:69-75 | one `{ email }` contact per entry, in order, without a name |
| `Signup.BuildEmergencyContacts` | frontend/src/pages/Signup.js:69-75 | the list holds the first input then the second, each only when filled; at most two entries, none empty |
| `Signup.ClientAndServerValidation` | frontend/src/pages/Signup.js:52-83 | a form the client accepts carries every field the server requires and a password the schema accepts; the server then accepts the document iff the name, email and contact emails are not blank once normalised |
| `Signup.SubmittedDocument` | backend/routes/auth.js:36-42 | for a request with non-empty name and email and a long enough password, validation reduces to the normalised fields being non-blank |
| `Signup.ContactEmailsNormalized` | backend/models/User.js:27-33 | the stored contact emails are non-blank iff each entry is non-blank once normalised |
| `Signup.BlankNameFailsOnServer` | frontend/src/pages/Signup.js:52 | a name made only of spaces passes the client but the server answers 500 and stores nothing |
| `Signup.SignupPage.constructor` | frontend/src/pages/Signup.js:29-38 | all seven inputs start empty, with no error, call or navigation |
| `Signup.SignupPage.HandleChange` | frontend/src/pages/Signup.js:40-45 | the named input takes the value and every other input keeps its own |
| `Signup.SignupPage.HandleSubmit` | frontend/src/pages/Signup.js:47-90 | the error is cleared first; a failed check shows its message and calls nothing; otherwise `register` is called once with the submission, and the page goes to /dashboard only when it resolves, else it shows the error's message or the default |
| `Signup.SubmitFailureShowsError` | frontend/src/pages/Signup.js:53-88 | every check message and the failure fallback are non-empty, so a failed submit always shows an error |
| `Login.LoginFormError` | frontend/src/pages/Login.js:40-43 | the form passes iff both inputs are filled; otherwise the message is "Please fill in all fields" |
| `Login.ClientCheckMatchesServer` | frontend/src/pages/Login.js:40-46 | the client check passes iff the server would not answer "Please provide email and password" |
| `Login.LoginPage.constructor` | frontend/src/pages/Login.js:22-26 | both inputs start empty, with no error, request, session or navigation |
| `Login.LoginPage.HandleChange` | frontend/src/pages/Login.js:28-33 | the named input takes the value and every other input keeps its own |
| `Login.LoginPage.HandleSubmit` | frontend/src/pages/Login.js:35-52 | the error is cleared first; an empty input shows the message and sends nothing; on success the session is recorded, then the page goes to /dashboard; on failure the error is the message or the default and there is no navigation |
| `Routes.ProtectedRoute` | frontend/src/App.js:14-17 | the child renders iff the user is authenticated; otherwise it redirects to /login |
| `Routes.RoutesDisjoint` | frontend/src/App.js:33-49 | no pathname matches two of the static routes |
| `Routes.TargetsMatch` | frontend/src/App.js:14-50 | every redirect target matches its own route |
| `Routes.GuardProtectsDashboard` | frontend/src/App.js:14-49 | an unauthenticated user never gets the Dashboard, and its path redirects to /login |
| `Routes.AuthenticatedSkipsAuthPages` | frontend/src/App.js:34-41 | an authenticated user asking for /login or /signup is redirected to /dashboard |
| `Routes.HomeForEveryone` | frontend/src/App.js:33 | `/` renders Home whatever the authentication state |
| `Routes.UnknownPathsGoHome` | frontend/src/App.js:50 | every other path redirects to `/` |
| `Routes.RedirectsSettle` | frontend/src/App.js:14-50 | from any path a page is reached within two resolutions, so there is no redirect loop; unauthenticated users never reach the Dashboard and authenticated users never the login or signup page |

## Left out

- Asynchrony and interleaving: every callback, promise and `await` runs to completion inside the call that started it. Late provider replies overwriting newer state, and the order of a snackbar relative to a dialog closing, are not modelled.
- `Dashboard.DashboardPage.ConfirmSos`: the outer `try/catch` never fires, because the GPS callbacks run outside it. `currentUser` being null is not modelled.
- Snackbar severities, the siren, logout, the maps and nearby-place mock data, and all JSX rendering. Messages are a log of `Notice` values.
- Floating point: `parseFloat` and the printing of numbers are uninterpreted parameters. `toFixed` and `Math.round` do not occur in the modelled code.
- Timestamps (`new Date()`), console logging, JWT signing and expiry (a token stands for the user id it carries), bcrypt salting and hashing (uninterpreted `hash` and `compare`).
- The email body and nodemailer. Only the transport's contract is kept: a result, or a thrown error that the handler catches.
- Server errors from the database (connection failures, a malformed ObjectId in `findById`) and the 500 answers of the outer `catch` blocks they lead to. A `userId` that is not a string matches no document.
- Unicode: `toLowerCase` and React Router's case-insensitive matching are modelled for ASCII letters only. String lengths count characters, not UTF-16 code units. URL percent-decoding of pathnames is not modelled.
- The authentication context (`register`, `login`, `isAuthenticated`): its outcomes and flag are parameters.
- `frontend/src/services/api.js`, `backend/server.js`, `backend/routes/user.js`: HTTP plumbing and profile CRUD.
- JSON request and reply bodies hold only strings (or, for coordinates, the values `JsValue` has). An object or array value is not modelled. Examples: an email of `{"$ne": null}` passes `!email` and `findOne` reads it as a query operator; a latitude of `{}` passes the guard in sos.js and prints as `[object Object]` in the maps link.
- `UserModel.SaveLoadCompare`: proves only that the right password is accepted. The model does not claim that a wrong one is rejected. bcrypt compares only the first 72 bytes, so a different password sharing that prefix also matches; `compare` is a parameter with no property beyond `Sound`.
- The user collection is a sequence, not a keyed store. Concurrent registrations racing past the duplicate check are not modelled; the unique index then rejects the second insert, which the model also shows as a 500.
