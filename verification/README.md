# MobiDoc consultation back end in Dafny

This project models the core of the MobiDoc back end. MobiDoc connects a
patient with a doctor for a remote consultation. The model covers:

- the REST handlers for consultations, doctor KYC review, KYC upload and
  authentication;
- the error-handling middleware that turns a thrown error into an HTTP
  status and body;
- the Socket.IO gate and the two chat events, `joinConsultation` and
  `message`.

The four Mongo collections (users, consultations, messages, KYC audits) are
sequences held by a `Store` class:

- A record's identifier is its position in the sequence.
- A client names a record by the decimal spelling of that identifier. A
  string that is not such a spelling fails to cast, as a malformed ObjectId
  does.
- `createdAt` comes from a clock that ticks on every insert, so creation
  times strictly increase along each collection.
- `Store.Valid()` holds after every operation. It states that identifiers are
  positions, timestamps increase, e-mail addresses are unique, every
  consultation's patient is a stored patient and its doctor a stored
  doctor, and every message belongs to a stored consultation and carries
  trimmed, non-empty text.

Socket rooms are a `Rooms` class holding a map from room name to a set of
connection ids. Each connection is a `Socket` object whose `user` is set by
the connection gate.

Each handler is a method or function returning a `Reply`: `Ok(status,
value)` or `Err` with the status and JSON body. A socket handler returns the
event it emits, addressed to the sender or to the members of a room. Every
contract states which failure wins when several checks fail, what is created
or changed, and what is left as it was. The access rule, repeated five times
in the source, is the single predicate `Access.CanAccess`. Lemmas show that
the REST readers and the socket handlers are all gated by it.

Hashing a password, comparing a password with a hash, and verifying a signed
token are parameters of the operations that use them.

Modules: `Seqs` (first and last match, filter, reverse, ordering), `Text`
(JavaScript `trim`, `toLowerCase`, `replace`, truthiness), `Ids`, `Models`,
`Errors`, `Database`, `Access`, `Consultations`, `Auth`, `Admin`, `Users`,
`Sockets`.

## Where the code departs from the intended behaviour

The model follows the code in each case.

- `updateConsultationStatus` rejects an unknown status (400) before it looks
  the consultation up. The intended order checks existence and access
  before the status value.
- Every consultation reader and both socket handlers report a missing
  consultation (404 or "Consultation not found") before checking access
  (403 or "Access denied"). The intended rule is that a denial does not
  reveal whether the consultation exists.
  `Consultations.OutsiderLearnsExistence` shows how an outsider tells the
  two apart.
- A consultation's room is named after the string the client sent,
  `"consultation_" + consultationId`, not after the stored identifier
  (`Sockets.RoomFollowsSpelling`). Mongoose casts a hexadecimal ObjectId
  whatever the case of its letters, so two spellings of one identifier find
  the same consultation but name two rooms, and a party who joined under
  one spelling does not receive messages sent under the other. The intended
  behaviour is one room per consultation. The model spells identifiers in
  one way only, so it cannot exhibit two such spellings.

## Other behaviour of note

- When an admin who is not the patient sends a message, the recipient is
  the patient, because the recipient is the doctor only when the sender is
  the patient (`Sockets.AdminWritesToPatient`). No policy for messages
  from an admin is stated anywhere in the code.
- The socket gate accepts any verified token, including a refresh token;
  only `/auth/refresh` checks the token's type
  (`Sockets.GateAcceptsStoredUser`).
- A status change is applied whatever the current status is. No order of
  statuses is enforced.

## Model

| member | source | states |
|---|---|---|
| Models.ParseRole | backend/src/models/User.js:26-30 | A role string is accepted exactly when it is the name of one of patient, doctor or admin, and it parses to that role |
| Models.ParseStatus | backend/src/models/Consultation.js:15-19 | A status string is accepted exactly when it names one of pending, active, completed or cancelled, and it parses to that status |
| Models.NewUser | backend/src/models/User.js:34-67 | Defines a new user's schema defaults: KYC pending, no documents, no specialties, no licence number, available |
| Models.ValidMessageText | backend/src/models/Message.js:20-24 | Defines the message schema's text rule: non-empty and already trimmed |
| Models.RequiredMessage | backend/src/middlewares/errorHandler.js:7 | Defines Mongoose's message for an empty required path, "Path `p` is required.", which the validation 400 lists in its details |
| Models.UserValidationErrors | backend/src/models/User.js:6-25 | A user record fails validation exactly when its trimmed name, its normalised e-mail or its password hash is empty. Each required path's message is present exactly when that field is empty, no other message appears, and the number of messages is the number of empty fields |
| Models.NormalizeEmail | backend/src/models/User.js:11-17 | Defines the stored form of an address: the `trim` setter, then the `lowercase` setter, as Mongoose applies them last-declared first; its contract states that the opposite order gives the same address |
| Text.TrimLowerCommute | backend/src/models/User.js:15-16 | Trimming and lowercasing may be applied in either order with the same result |
| Models.NormalizeEmailIdempotent | backend/src/models/User.js:11-17 | Lowercasing and trimming an address twice gives the same result as doing it once, so a stored address matches itself as a query |
| Text.Present | backend/src/controllers/authController.js:10 | Defines JavaScript truthiness of a request field: present and non-empty (also authController.js:60 and :98, consultationController.js:10, sockets/index.js:10-12) |
| Text.Lower | backend/src/models/User.js:15 | Defines the `lowercase` setter on ASCII letters: same length, each character lowercased and every other character kept |
| Text.Trim | backend/src/models/Message.js:20-24 | Defines JavaScript `trim`: the string without its leading and trailing ECMAScript white space |
| Text.TrimEnds | backend/src/sockets/index.js:100 | A non-empty trimmed string neither starts nor ends with white space |
| Text.TrimPadded | backend/src/sockets/index.js:100 | Text padded with white space on both sides trims to exactly the word inside, so "  hello  " is stored as "hello" |
| Text.TrimIdempotent | backend/src/models/Message.js:20-24 | Trimming a trimmed text changes nothing, so trimmed message text satisfies the schema's trim rule |
| Text.TrimEmptyIffBlank | backend/src/sockets/index.js:68-71 | Text trims to nothing exactly when every character is white space |
| Errors.Fail | backend/src/controllers/consultationController.js:10-12 | Defines a handler's own refusal `res.status(code).json({ error })`: that status, that text, no details |
| Errors.ValidationError | backend/src/middlewares/errorHandler.js:4-9 | Defines the error a failed schema validation throws: named ValidationError, carrying one message per failing path |
| Errors.DuplicateKeyError | backend/src/middlewares/errorHandler.js:11-16 | Defines the error the unique e-mail index throws: named MongoServerError with code 11000 |
| Errors.CastError | backend/src/middlewares/errorHandler.js:25-27 | Defines the error a malformed id throws in `findById`: named CastError, no status, with Mongoose's cast message, which becomes the 500 body |
| Errors.NullPropertyError | backend/src/middlewares/errorHandler.js:25-27 | Defines the error reading a property of a missing record throws: named TypeError, no status, with the engine's message, which becomes the 500 body |
| Errors.FallbackStatus | backend/src/middlewares/errorHandler.js:25 | Defines the fallback of `err.status` to 500: the error's own status when it has a non-zero one, otherwise 500 |
| Errors.ErrorHandler | backend/src/middlewares/errorHandler.js:1-28 | The first matching case decides: ValidationError gives 400 with one detail per field; duplicate key 11000 gives 400 "Duplicate entry"; MulterError gives 400 "File upload error" with the message; anything else gives its own non-zero status or 500, with its message or "Internal server error" |
| Errors.UnrecognisedIsServerError | backend/src/middlewares/errorHandler.js:25-28 | An unrecognised error without a status, or with status 0, is answered with 500 |
| Errors.ErrorHandlerStatuses | backend/src/middlewares/errorHandler.js:4-28 | The answer's status is always 400, 500 or the error's own status |
| Errors.ValidationWinsOverDuplicate | backend/src/middlewares/errorHandler.js:4-16 | The branches are told apart by the error's name, so every validation error is answered as one, with 400 and its field messages, even one that also carries the duplicate-key code 11000 |
| Errors.RaisedErrorStatuses | backend/src/middlewares/errorHandler.js:4-28 | The errors the handlers raise map as intended: validation and duplicate e-mail to 400, a failed id cast and a read of a missing record to 500 |
| Ids.WellFormedId | backend/src/controllers/consultationController.js:115 | Defines the strings that cast to an identifier: non-empty, digits only, no leading zero; every other string is the cast failure of `findById` |
| Database.FindById | backend/src/controllers/consultationController.js:115-118 | A malformed id fails to cast; otherwise the lookup finds a record whose id the string spells, or reports that none has it |
| Database.FindAssignedId | backend/src/controllers/consultationController.js:115-118 | In a keyed collection, the spelling of an assigned id finds exactly the record it was assigned to |
| Database.FoundIsUnique | backend/src/controllers/consultationController.js:145-148 | Only the record whose id a string spells is found for that string |
| Database.Store.Valid | backend/src/models/Consultation.js:5-14 | Defines the store invariant every store operation keeps: ids are positions, creation times increase, e-mail addresses are unique (the unique index of User.js:14), each consultation's patient and doctor are a stored patient and a stored doctor, and each message belongs to a stored consultation with trimmed non-empty text (Message.js:20-24) |
| Database.Store.Tick | backend/src/controllers/adminController.js:41 | Reading the clock, `new Date()` for `reviewedAt`, returns its current value and moves it on by one; no collection changes (also adminController.js:48) |
| Database.Store.InsertUser | backend/src/models/User.js:11-17 | A user whose address is not yet in use is created with the next id and the current time, and the store keeps its invariant, unique addresses included |
| Database.Store.UpdateUser | backend/src/controllers/adminController.js:33-34 | Saving a user replaces exactly that record and keeps its id, e-mail, role and creation time |
| Database.Store.InsertConsultation | backend/src/models/Consultation.js:1-27 | A consultation is created with status pending, the next id and the current time, and refers to a stored patient and a stored doctor; callers must pass both |
| Database.Store.SetStatus | backend/src/controllers/consultationController.js:129-130 | Saving a status changes that one field of that one consultation |
| Database.Store.InsertMessage | backend/src/models/Message.js:1-28 | A message is appended with the next id and the current time, for a stored consultation and with trimmed non-empty text |
| Database.Store.InsertAudit | backend/src/controllers/userController.js:22-25 | An audit is appended with the next id and the current time |
| Database.Store.UpdateAudit | backend/src/controllers/adminController.js:38-42 | Saving an audit replaces exactly that record and keeps its id and creation time |
| Access.CanAccess | backend/src/controllers/consultationController.js:68-72 | Defines the one access rule of every consultation handler: the caller is an admin, the consultation's patient or its doctor (also consultationController.js:121-125 and :151-155, sockets/index.js:46-50 and :80-84) |
| Access.OutsiderRefused | backend/src/controllers/consultationController.js:68-74 | A user who is neither an admin nor a party is refused, whatever the consultation's status |
| Consultations.Eligible | backend/src/controllers/consultationController.js:19-24 | Defines a doctor who may be matched: role doctor, KYC approved, available, and offering the specialization |
| Consultations.MatchDoctor | backend/src/controllers/consultationController.js:19-24 | The matched user is an approved, available doctor with the specialization, and no earlier user qualifies; no match means no user qualifies |
| Consultations.PendingDoctorNeverMatched | backend/src/controllers/consultationController.js:19-24 | A doctor whose KYC is not approved is never matched |
| Consultations.CreateConsultation | backend/src/controllers/consultationController.js:5-53 | The caller is the stored user that authentication loaded. 400 without specialization, then 403 for a non-patient, then 404 without a matching doctor. Success iff all pass: 201 with a pending consultation for the caller and the first matching doctor, appended to the store. Failures change nothing, and no other collection changes |
| Consultations.GetConsultation | backend/src/controllers/consultationController.js:55-80 | 500 for a malformed id, 404 when absent, 403 when access is refused. Success iff found and accessible, returning the stored consultation the id names |
| Consultations.Mine | backend/src/controllers/consultationController.js:88-94 | Defines the query of the caller's own list: consultations whose patient is a patient caller, or whose doctor is any other caller |
| Consultations.MyConsultations | backend/src/controllers/consultationController.js:82-104 | An admin gets 403 "Invalid role". A patient gets exactly the consultations with their patient id, a doctor exactly those with their doctor id |
| Consultations.MyConsultationsNewestFirst | backend/src/controllers/consultationController.js:96-98 | The list is sorted by createdAt, newest first |
| Consultations.UpdateConsultationStatus | backend/src/controllers/consultationController.js:106-139 | 400 for an unknown status before any lookup, then 500, 404, 403. Success iff all pass: only the status field of that consultation changes, to the requested value, from any current status. Nothing else in the store changes |
| Consultations.ConsultationMessages | backend/src/controllers/consultationController.js:141-168 | The same 500/404/403 gate; success iff found and accessible, returning exactly the messages of that consultation |
| Consultations.MessagesOldestFirst | backend/src/controllers/consultationController.js:159-162 | The messages come sorted by createdAt, oldest first |
| Consultations.ReadersShareGate | backend/src/controllers/consultationController.js:141-157 | A caller refused access to a stored consultation gets the same 403 from both readers |
| Consultations.OutsiderLearnsExistence | backend/src/controllers/consultationController.js:63-74 | An outsider gets 403 for a stored consultation and 404 for the next unassigned id, so the two can be told apart |
| Auth.FindByEmail | backend/src/controllers/authController.js:64 | The user found has the address; no result means no user has it |
| Auth.RegistrationRecord | backend/src/controllers/authController.js:20-32 | The record has the trimmed name and phone, the normalised e-mail, the hash and the role, KYC pending and available. Only a doctor's record takes specialties (empty by default) and a licence number |
| Auth.PatientIgnoresDoctorFields | backend/src/controllers/authController.js:28-32 | A patient's record does not depend on the specialties or licence number sent |
| Auth.Registrable | backend/src/controllers/authController.js:14 | Defines the roles accepted at registration: patient and doctor only |
| Auth.Register | backend/src/controllers/authController.js:6-34 | 400 "Missing required fields", then 400 for a role other than patient or doctor, then validation 400, then duplicate e-mail 400. Success iff all pass, with 201 and the record appended. Any failure leaves the users unchanged |
| Auth.Login | backend/src/controllers/authController.js:56-72 | 400 iff the e-mail or password is missing. Success iff a user has the normalised address and the password matches its hash. An unknown address and a wrong password both give 401 "Invalid credentials" |
| Auth.RegisteredUserLogsIn | backend/src/controllers/authController.js:64-72 | With unique addresses, a stored user who gives an address that normalises to theirs and a matching password logs in as that user |
| Auth.IsRefreshClaims | backend/src/controllers/authController.js:103 | Defines a usable refresh token: it verifies and its type is "refresh" |
| Auth.Refresh | backend/src/controllers/authController.js:94-110 | 400 without a token; 401 when the token fails to verify or is not of type refresh; 500 for a malformed user id; 401 for an unknown user; otherwise the stored user |
| Auth.RefreshIssuedToken | backend/src/controllers/authController.js:102-112 | A refresh token issued for a stored user refreshes exactly that user |
| Admin.QueriedStatus | backend/src/controllers/adminController.js:6 | Defines the queried KYC status: the `status` query parameter, or "pending" when it is absent |
| Admin.Listed | backend/src/controllers/adminController.js:8-11 | Defines who is listed: a doctor whose KYC status has exactly the queried name |
| Admin.PendingDoctors | backend/src/controllers/adminController.js:4-17 | Exactly the doctors whose KYC status has the queried name are listed |
| Admin.DefaultListsPending | backend/src/controllers/adminController.js:6-11 | Without a query, exactly the doctors with KYC pending are listed |
| Admin.UnknownStatusListsNobody | backend/src/controllers/adminController.js:8-11 | A status that names no KYC state lists nobody |
| Admin.ReviewDecision | backend/src/controllers/adminController.js:24-26 | Only "approve" and "reject" are accepted; approve means approved, reject means rejected |
| Admin.LatestAudit | backend/src/controllers/adminController.js:37 | The audit chosen belongs to the user; none is chosen only when the user has no audit |
| Admin.LatestAuditIsNewest | backend/src/controllers/adminController.js:37 | The chosen audit has the latest createdAt among the user's audits |
| Admin.ReviewDoctor | backend/src/controllers/adminController.js:19-64 | 400 for an unknown action before any lookup, then 500 for a malformed id, then 404 unless the id names a doctor. Success iff all pass: only the doctor's kycStatus changes. The user's latest audit gets the reviewer, notes and time; with no audit, exactly one new audit is appended. Failures change nothing |
| Users.UploadUrls | backend/src/controllers/userController.js:14 | One path per file, "/uploads/" followed by the file name, in upload order |
| Users.UploadUrlsAppend | backend/src/controllers/userController.js:14-17 | Uploading in two batches lists the same paths as one batch |
| Users.UploadKyc | backend/src/controllers/userController.js:4-35 | 400 without files, then 403 for a non-doctor, then 500 when the caller's record is gone. On success the old documents are followed by the new paths and KYC is reset to pending. Exactly one audit holding only the new paths is appended, and it becomes the user's latest. Failures change nothing |
| Text.ReplaceFirst | backend/src/sockets/index.js:10 | Defines JavaScript `replace` with a string pattern: only the first occurrence is replaced, and a string without it is unchanged |
| Text.ReplaceLeadingPattern | backend/src/sockets/index.js:10 | Replacing a leading pattern by nothing leaves exactly the rest of the string |
| Sockets.Credential | backend/src/sockets/index.js:10 | Defines the credential: `auth.token` when it is a non-empty string, otherwise the `Authorization` header with its first "Bearer " removed |
| Sockets.AuthTokenWins | backend/src/sockets/index.js:10 | A non-empty `auth.token` is the credential, whatever the header says |
| Sockets.BearerHeaderGivesToken | backend/src/sockets/index.js:10 | Without `auth.token`, a "Bearer" header gives exactly the token after it |
| Sockets.Authenticate | backend/src/sockets/index.js:8-31 | Refused in order: no token, a token that does not verify, a user id that fails to cast, an unknown user. Otherwise the stored user is accepted |
| Sockets.GateAcceptsStoredUser | backend/src/sockets/index.js:16-27 | A verified token naming a stored user opens the connection, whatever the token's type |
| Sockets.Socket.Connect | backend/src/sockets/index.js:8-31 | The socket carries the user exactly when the gate accepts it |
| Sockets.WithMember | backend/src/sockets/index.js:56 | Joining adds the connection to that room and leaves every other room unchanged |
| Sockets.JoinIsIdempotent | backend/src/sockets/index.js:56 | Joining a room twice is the same as joining it once |
| Sockets.Rooms.Join | backend/src/sockets/index.js:56 | Room membership becomes the old membership with the connection added to the room |
| Sockets.Rooms.Members | backend/src/sockets/index.js:109 | Defines who receives `io.to(roomName).emit`: the connections that joined the room, and nobody for a room never joined |
| Sockets.RoomName | backend/src/sockets/index.js:55 | Defines a consultation's room as "consultation_" followed by the identifier string the client sent |
| Sockets.RoomFollowsSpelling | backend/src/sockets/index.js:55 | Two room names are equal exactly when the identifier strings they were built from are equal, so the room follows the client's spelling |
| Sockets.AdmitTo | backend/src/sockets/index.js:39-53 | A missing or absent consultation gives "Consultation not found"; a failed cast gives the handler's failure message; refused access gives "Access denied"; otherwise the handler may go on with an accessible consultation |
| Sockets.SocketGateAgreesWithRest | backend/src/sockets/index.js:46-53 | The socket check admits a user exactly when the REST reader returns the consultation, and its not-found and access denials match the reader's 404 and 403 |
| Sockets.JoinConsultation | backend/src/sockets/index.js:37-63 | A denied join sends the error to the requester only and leaves the rooms unchanged. An admitted join adds the socket to "consultation_" + id and sends `joined` to the requester only |
| Sockets.Blank | backend/src/sockets/index.js:68 | Defines refused text: absent, or empty once trimmed |
| Sockets.Recipient | backend/src/sockets/index.js:90-93 | Defines the recipient: the doctor when the sender is the patient, otherwise the patient |
| Sockets.RecipientIsOtherParty | backend/src/sockets/index.js:90-93 | A party to a consultation writes to the other party |
| Sockets.AdminWritesToPatient | backend/src/sockets/index.js:90-93 | An admin who is not the patient may write, and writes to the patient |
| Sockets.HandleMessage | backend/src/sockets/index.js:66-123 | Blank text is refused before any lookup. A denied message is answered to the sender only, and nothing is stored. An admitted message is appended once with the trimmed text and its recipient, and that same record goes to every member of the room |

## Left out

- Token signing, expiry and the secret are left out. `verifyToken` is a parameter that returns claims or nothing.
- Password hashing and comparison are left out. bcrypt is a pair of parameters, and the salt rounds are not modelled.
- `getMe` (backend/src/controllers/authController.js:122-129) is a plain read of the caller's record and is not modelled.
- The response bodies' message texts and tokens are left out. A successful reply carries the stored record.
- `populate` and the `select('-passwordHash')` projections are left out. Records are returned whole, with ids for references.
- Users are never deleted, and `Store.Valid` keeps every consultation's patient a stored patient and its doctor a stored doctor. So the null `populate` that would make `getConsultation`'s access check throw (backend/src/controllers/consultationController.js:59-72) does not arise. The other handlers compare the stored ids and do not dereference a party.
- Store failures (an unreachable database) are left out. They would reach the middleware as ordinary errors.
- Timestamps come from a counter, not the wall clock. `updatedAt` is not modelled.
- ObjectIds are natural numbers spelled in decimal. Hexadecimal spelling and its case are not modelled, so two spellings of one identifier, and the two rooms they name, cannot arise in the model.
- Request fields are optional strings, and files are optional sequences of names. Non-string JSON values (numbers, arrays, objects) are not modelled, nor is a socket payload that is not an object.
- `toLowerCase` is modelled on ASCII letters only.
- Multer's storage naming and its size, type and count limits are left out. The uploaded file names are given, and only the `MulterError` branch of the middleware is modelled.
- The `authenticate` and `authorize` middlewares are left out, so the admin-only restriction of the admin routes is not modelled. `ReviewDoctor` takes the reviewer's id as given.
- The route table and server start-up are left out, as is logging.
- Socket.IO transport is left out: delivery, concurrency, and the room cleanup on disconnect. Events are handled one at a time.
- The `location` field with its geo index, `profilePhoto`, and the no-op pre-save hook of the user schema are left out.
- The consultation and message schemas' required-field validation cannot fail on the paths modelled, because the handlers always set those fields. The store operations take them as parameters.
- Database.Store.InsertMessage requires trimmed non-empty text rather than reporting a validation error. Its one caller trims the text and refuses blank text first.
