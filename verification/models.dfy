/** The persisted records (User, Consultation, Message, KycAudit), their enums
    with the strings clients use for them, the schema defaults, setters and
    required-field rules, and the claims carried by a signed token. */
module Models {
  import opened Seqs
  import opened Text
  import opened Ids

  datatype Role = Patient | Doctor | Admin

  function RoleName(r: Role): string {
    match r
    case Patient => "patient"
    case Doctor => "doctor"
    case Admin => "admin"
  }

  /** The role a client string names, if any: exactly the three enum values. */
  function ParseRole(s: string): (r: Option<Role>)
    ensures r.Some? ==> RoleName(r.value) == s
    ensures r.None? ==> forall x :: RoleName(x) != s
  {
    if s == "patient" then Some(Patient)
    else if s == "doctor" then Some(Doctor)
    else if s == "admin" then Some(Admin)
    else None
  }

  datatype KycStatus = KycPending | KycApproved | KycRejected

  function KycName(k: KycStatus): string {
    match k
    case KycPending => "pending"
    case KycApproved => "approved"
    case KycRejected => "rejected"
  }

  datatype Status = Pending | Active | Completed | Cancelled

  function StatusName(s: Status): string {
    match s
    case Pending => "pending"
    case Active => "active"
    case Completed => "completed"
    case Cancelled => "cancelled"
  }

  /** The status a client string names, if any: exactly the four enum values. */
  function ParseStatus(s: string): (r: Option<Status>)
    ensures r.Some? ==> StatusName(r.value) == s
    ensures r.None? ==> forall x :: StatusName(x) != s
  {
    if s == "pending" then Some(Pending)
    else if s == "active" then Some(Active)
    else if s == "completed" then Some(Completed)
    else if s == "cancelled" then Some(Cancelled)
    else None
  }

  /** A user. `specialties`, `licenseNumber` and `available` matter for
      doctors only; `kycDocs` and `kycStatus` are the KYC state. */
  datatype User = User(
    id: Id,
    name: string,
    email: string,
    phone: Option<string>,
    passwordHash: string,
    role: Role,
    kycStatus: KycStatus,
    kycDocs: seq<string>,
    specialties: seq<string>,
    licenseNumber: Option<string>,
    available: bool,
    createdAt: nat)

  datatype Consultation = Consultation(
    id: Id,
    patientId: Id,
    doctorId: Id,
    status: Status,
    specialization: string,
    createdAt: nat)

  datatype Message = Message(
    id: Id,
    consultationId: Id,
    fromUserId: Id,
    toUserId: Id,
    text: string,
    createdAt: nat)

  datatype KycAudit = KycAudit(
    id: Id,
    userId: Id,
    submittedDocs: seq<string>,
    adminReviewer: Option<Id>,
    reviewNotes: Option<string>,
    reviewedAt: Option<nat>,
    createdAt: nat)

  /** The decoded payload of a signed token. */
  datatype Claims = Claims(userId: string, role: string, tokenType: Option<string>)

  function IdOfUser(u: User): Id { u.id }
  function IdOfConsultation(c: Consultation): Id { c.id }
  function IdOfMessage(m: Message): Id { m.id }
  function IdOfAudit(a: KycAudit): Id { a.id }

  function ConsultationCreatedAt(c: Consultation): int { c.createdAt }
  function MessageCreatedAt(m: Message): int { m.createdAt }
  function AuditCreatedAt(a: KycAudit): int { a.createdAt }
  function UserCreatedAt(u: User): int { u.createdAt }

  /** The e-mail setters, applied last-declared first: `trim`, then
      `lowercase`. */
  function NormalizeEmail(email: string): (r: string)
    ensures r == Trim(Lower(email))
  {
    TrimLowerCommute(email);
    Lower(Trim(email))
  }

  /** Normalising an address twice is normalising it once, so the address
      stored at registration is found again by a query that normalises it. */
  lemma NormalizeEmailIdempotent(email: string)
    ensures NormalizeEmail(NormalizeEmail(email)) == NormalizeEmail(email)
  {
    var t := Trim(email);
    TrimLowerCommute(t);
    TrimIdempotent(email);
    LowerIsLowered(t);
    LowerFixesLowered(Lower(t));
  }

  /** A new user with the schema defaults: KYC pending, available, no
      documents, no specialties, no licence. Identity and timestamp are
      assigned by the store on insert. */
  function NewUser(name: string, email: string, phone: Option<string>, passwordHash: string, role: Role): User {
    User(0, name, email, phone, passwordHash, role, KycPending, [], [], None, true, 0)
  }

  /** Mongoose's message for an empty required path. */
  function RequiredMessage(path: string): string {
    "Path `" + path + "` is required."
  }

  /** The three required paths of the user schema have different messages. */
  lemma RequiredPathsDiffer()
    ensures RequiredMessage("name") != RequiredMessage("email")
    ensures RequiredMessage("name") != RequiredMessage("passwordHash")
    ensures RequiredMessage("email") != RequiredMessage("passwordHash")
  {
    assert RequiredMessage("name")[6] == 'n';
    assert RequiredMessage("email")[6] == 'e';
    assert RequiredMessage("passwordHash")[6] == 'p';
  }

  /** The required-field failures of a user record, in schema order: one
      message for each empty required path and nothing else. */
  function UserValidationErrors(u: User): (errs: seq<string>)
    ensures errs == [] <==> u.name != [] && u.email != [] && u.passwordHash != []
    ensures RequiredMessage("name") in errs <==> u.name == []
    ensures RequiredMessage("email") in errs <==> u.email == []
    ensures RequiredMessage("passwordHash") in errs <==> u.passwordHash == []
    ensures forall e :: e in errs ==>
      e == RequiredMessage("name") || e == RequiredMessage("email") || e == RequiredMessage("passwordHash")
    ensures |errs| == (if u.name == [] then 1 else 0) + (if u.email == [] then 1 else 0)
                      + (if u.passwordHash == [] then 1 else 0)
  {
    RequiredPathsDiffer();
    (if u.name == [] then [RequiredMessage("name")] else [])
    + (if u.email == [] then [RequiredMessage("email")] else [])
    + (if u.passwordHash == [] then [RequiredMessage("passwordHash")] else [])
  }

  /** The message schema's rule for `text`: required after trimming. */
  predicate ValidMessageText(text: string) {
    text != [] && Trim(text) == text
  }
}
