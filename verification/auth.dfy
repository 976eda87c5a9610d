/** The authentication controller: registration builds and stores a user
    record, login and refresh only read the users. Hashing, comparing a
    password with a hash and verifying a signed token are parameters. */
module Auth {
  import opened Seqs
  import opened Text
  import opened Ids
  import opened Models
  import opened Errors
  import opened Database

  /** `findOne({ email })`: the first user with that address. */
  function FindByEmail(users: seq<User>, email: string): (r: Option<nat>)
    ensures r.Some? ==> r.value < |users| && users[r.value].email == email
    ensures r.None? ==> forall u :: u in users ==> u.email != email
  {
    FirstIndex(users, (u: User) => u.email == email)
  }

  /** The roles a client may register with. */
  predicate Registrable(role: Option<Role>) {
    role == Some(Patient) || role == Some(Doctor)
  }

  /** The record `register` asks the store to create, after the schema's
      setters: name and phone trimmed, e-mail lowercased and trimmed. Only a
      doctor's record takes the specialties (empty when absent) and the
      licence number; a patient's keeps the schema defaults. */
  function RegistrationRecord(name: string, email: string, passwordHash: string, role: Role,
                              phone: Option<string>, specialties: Option<seq<string>>,
                              licenseNumber: Option<string>): (u: User)
    ensures u.name == Trim(name) && u.email == NormalizeEmail(email)
    ensures u.passwordHash == passwordHash && u.role == role
    ensures u.phone.Some? <==> phone.Some?
    ensures phone.Some? ==> u.phone.value == Trim(phone.value)
    ensures u.kycStatus == KycPending && u.kycDocs == [] && u.available
    ensures role == Doctor ==>
      && u.specialties == (if specialties.Some? then specialties.value else [])
      && u.licenseNumber == licenseNumber
    ensures role != Doctor ==> u.specialties == [] && u.licenseNumber.None?
  {
    var phoneSet := if phone.Some? then Some(Trim(phone.value)) else None;
    var base := NewUser(Trim(name), NormalizeEmail(email), phoneSet, passwordHash, role);
    if role == Doctor then
      base.(specialties := if specialties.Some? then specialties.value else [],
            licenseNumber := licenseNumber,
            kycStatus := KycPending)
    else base
  }

  /** A patient's record does not depend on the doctor-only fields sent
      with the request. */
  lemma PatientIgnoresDoctorFields(name: string, email: string, passwordHash: string,
                                   phone: Option<string>,
                                   s1: Option<seq<string>>, l1: Option<string>,
                                   s2: Option<seq<string>>, l2: Option<string>)
    ensures RegistrationRecord(name, email, passwordHash, Patient, phone, s1, l1)
         == RegistrationRecord(name, email, passwordHash, Patient, phone, s2, l2)
  {
  }

  /** POST /auth/register. Missing fields, then the role, then the schema's
      required paths, then the unique e-mail index; only when all pass is a
      user created. */
  method Register(store: Store, name: Option<string>, email: Option<string>, password: Option<string>,
                  role: Option<string>, phone: Option<string>, specialties: Option<seq<string>>,
                  licenseNumber: Option<string>, hash: string -> string)
    returns (r: Reply<User>)
    requires store.Valid()
    modifies store
    ensures store.Valid()
    ensures !(Present(name) && Present(email) && Present(password) && Present(role)) ==>
      r == Fail(400, "Missing required fields")
    ensures (Present(name) && Present(email) && Present(password) && Present(role)
             && !Registrable(ParseRole(role.value))) ==>
      r == Fail(400, "Invalid role for registration")
    ensures (Present(name) && Present(email) && Present(password) && Present(role)
             && Registrable(ParseRole(role.value))) ==>
      var u := RegistrationRecord(name.value, email.value, hash(password.value), ParseRole(role.value).value,
                                  phone, specialties, licenseNumber);
      && (UserValidationErrors(u) != [] ==>
            r == Err(ErrorHandler(ValidationError("User", UserValidationErrors(u)))))
      && (UserValidationErrors(u) == [] && FindByEmail(old(store.users), u.email).Some? ==>
            r == Err(ErrorHandler(DuplicateKeyError())))
      && (r.Ok? <==> UserValidationErrors(u) == [] && FindByEmail(old(store.users), u.email).None?)
      && (r.Ok? ==>
            && r.status == 201
            && r.value == u.(id := |old(store.users)|, createdAt := old(store.clock))
            && store.users == old(store.users) + [r.value])
    ensures r.Err? ==> store.users == old(store.users) && store.clock == old(store.clock)
    ensures store.consultations == old(store.consultations) && store.messages == old(store.messages)
    ensures store.audits == old(store.audits)
  {
    if !(Present(name) && Present(email) && Present(password) && Present(role)) {
      return Fail(400, "Missing required fields");
    }
    var parsed := ParseRole(role.value);
    if !Registrable(parsed) {
      return Fail(400, "Invalid role for registration");
    }
    var passwordHash := hash(password.value);
    var u := RegistrationRecord(name.value, email.value, passwordHash, parsed.value,
                                phone, specialties, licenseNumber);
    var errs := UserValidationErrors(u);
    if errs != [] {
      return Err(ErrorHandler(ValidationError("User", errs)));
    }
    if FindByEmail(store.users, u.email).Some? {
      return Err(ErrorHandler(DuplicateKeyError()));
    }
    var created := store.InsertUser(u);
    r := Ok(201, created);
  }

  /** POST /auth/login. An unknown address and a wrong password are refused
      alike. */
  function Login(users: seq<User>, email: Option<string>, password: Option<string>,
                 matches: (string, string) -> bool): (r: Reply<User>)
    ensures !(Present(email) && Present(password)) <==> r == Fail(400, "Email and password are required")
    ensures Present(email) && Present(password) ==>
      var found := FindByEmail(users, NormalizeEmail(email.value));
      r.Ok? <==> found.Some? && matches(password.value, users[found.value].passwordHash)
    ensures r.Ok? ==>
      && r.status == 200 && r.value in users
      && r.value.email == NormalizeEmail(email.value)
      && matches(password.value, r.value.passwordHash)
    ensures r.Err? && Present(email) && Present(password) ==> r == Fail(401, "Invalid credentials")
  {
    if !(Present(email) && Present(password)) then Fail(400, "Email and password are required")
    else
      match FindByEmail(users, NormalizeEmail(email.value))
      case None => Fail(401, "Invalid credentials")
      case Some(k) =>
        if !matches(password.value, users[k].passwordHash) then Fail(401, "Invalid credentials")
        else Ok(200, users[k])
  }

  /** A registered user who presents the address in any case and padding,
      with a password that matches the stored hash, logs in as that user. */
  lemma RegisteredUserLogsIn(users: seq<User>, k: nat, email: string, password: string,
                             matches: (string, string) -> bool)
    requires DistinctEmails(users) && k < |users|
    requires users[k].email == NormalizeEmail(email)
    requires Present(Some(email)) && Present(Some(password))
    requires matches(password, users[k].passwordHash)
    ensures Login(users, Some(email), Some(password), matches) == Ok(200, users[k])
  {
    var found := FindByEmail(users, NormalizeEmail(email));
    assert found.Some? by {
      assert users[k] in users;
    }
  }

  /** The claims of a token that may be used to refresh. */
  predicate IsRefreshClaims(claims: Option<Claims>) {
    claims.Some? && claims.value.tokenType == Some("refresh")
  }

  /** POST /auth/refresh: the user whose access token is reissued. */
  function Refresh(users: seq<User>, token: Option<string>, verify: string -> Option<Claims>)
    : (r: Reply<User>)
    ensures !Present(token) ==> r == Fail(400, "Refresh token is required")
    ensures Present(token) && !IsRefreshClaims(verify(token.value)) ==>
      r == Fail(401, "Invalid refresh token")
    ensures Present(token) && IsRefreshClaims(verify(token.value)) ==>
      var userId := verify(token.value).value.userId;
      var l := FindById(users, IdOfUser, userId);
      && (l.Malformed? ==> r == Err(ErrorHandler(CastError("User", userId))))
      && (l.Missing? ==> r == Fail(401, "User not found"))
      && (l.Found? ==> r == Ok(200, users[l.index]))
    ensures r.Ok? ==> r.status == 200 && r.value in users
  {
    if !Present(token) then Fail(400, "Refresh token is required")
    else
      var decoded := verify(token.value);
      if !IsRefreshClaims(decoded) then Fail(401, "Invalid refresh token")
      else
        match FindById(users, IdOfUser, decoded.value.userId)
        case Malformed => Err(ErrorHandler(CastError("User", decoded.value.userId)))
        case Missing => Fail(401, "User not found")
        case Found(k) => Ok(200, users[k])
  }

  /** A refresh token issued for a stored user refreshes that user. */
  lemma RefreshIssuedToken(users: seq<User>, k: nat, token: string, verify: string -> Option<Claims>)
    requires Keyed(users, IdOfUser) && k < |users| && Present(Some(token))
    requires verify(token) == Some(Claims(IdString(k), RoleName(users[k].role), Some("refresh")))
    ensures Refresh(users, Some(token), verify) == Ok(200, users[k])
  {
    FindAssignedId(users, IdOfUser, k);
  }
}
