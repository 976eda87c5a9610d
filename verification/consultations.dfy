/** The consultation controller: creating a consultation with the first
    eligible doctor, reading one, listing the caller's own, changing the
    status, and listing a consultation's messages. The three readers are
    queries over the stored collections; the two writers change the store. */
module Consultations {
  import opened Seqs
  import opened Text
  import opened Ids
  import opened Models
  import opened Errors
  import opened Database
  import opened Access

  /** A doctor who may take a new consultation in `specialization`. */
  predicate Eligible(u: User, specialization: string) {
    u.role == Doctor && u.kycStatus == KycApproved && u.available && specialization in u.specialties
  }

  /** The doctor matcher: the first eligible user in store order. */
  function MatchDoctor(users: seq<User>, specialization: string): (r: Option<nat>)
    ensures r.Some? ==> r.value < |users| && Eligible(users[r.value], specialization)
    ensures r.Some? ==> forall j :: 0 <= j < r.value ==> !Eligible(users[j], specialization)
    ensures r.None? ==> forall u :: u in users ==> !Eligible(u, specialization)
  {
    FirstIndex(users, u => Eligible(u, specialization))
  }

  /** A doctor still waiting for KYC approval is never matched, however
      early it stands in the store. */
  lemma PendingDoctorNeverMatched(users: seq<User>, specialization: string, k: nat)
    requires k < |users| && users[k].kycStatus != KycApproved
    ensures MatchDoctor(users, specialization) != Some(k)
  {
  }

  /** POST /consultations. The specialization is checked before the role;
      without an eligible doctor nothing is created. The caller is the
      stored user the authentication middleware loaded. */
  method CreateConsultation(store: Store, caller: User, specialization: Option<string>)
    returns (r: Reply<Consultation>)
    requires store.Valid()
    requires caller.id < |store.users| && store.users[caller.id].role == caller.role
    modifies store
    ensures store.Valid()
    ensures !Present(specialization) ==> r == Fail(400, "Specialization is required")
    ensures Present(specialization) && caller.role != Patient ==>
      r == Fail(403, "Only patients can create consultations")
    ensures (Present(specialization) && caller.role == Patient
             && MatchDoctor(old(store.users), specialization.value).None?) ==>
      r == Fail(404, "No available doctor found for this specialization")
    ensures r.Ok? <==> (Present(specialization) && caller.role == Patient
                        && MatchDoctor(old(store.users), specialization.value).Some?)
    ensures r.Err? ==> store.consultations == old(store.consultations) && store.clock == old(store.clock)
    ensures r.Ok? ==>
      var doctor := old(store.users)[MatchDoctor(old(store.users), specialization.value).value];
      && r.status == 201
      && r.value == Consultation(|old(store.consultations)|, caller.id, doctor.id, Pending,
                                 specialization.value, old(store.clock))
      && store.consultations == old(store.consultations) + [r.value]
    ensures store.users == old(store.users) && store.messages == old(store.messages)
    ensures store.audits == old(store.audits)
  {
    if !Present(specialization) {
      return Fail(400, "Specialization is required");
    }
    if caller.role != Patient {
      return Fail(403, "Only patients can create consultations");
    }
    var found := MatchDoctor(store.users, specialization.value);
    if found.None? {
      return Fail(404, "No available doctor found for this specialization");
    }
    var doctor := store.users[found.value];
    assert IdOfUser(store.users[found.value]) == found.value;
    var c := store.InsertConsultation(caller.id, doctor.id, specialization.value);
    r := Ok(201, c);
  }

  /** GET /consultations/:id. An absent consultation is reported before
      access is checked. */
  function GetConsultation(consultations: seq<Consultation>, caller: User, id: string)
    : (r: Reply<Consultation>)
    ensures var l := FindById(consultations, IdOfConsultation, id);
      && (l.Malformed? ==> r == Err(ErrorHandler(CastError("Consultation", id))))
      && (l.Missing? ==> r == Fail(404, "Consultation not found"))
      && (l.Found? && !CanAccess(caller, consultations[l.index]) ==> r == Fail(403, "Access denied"))
      && (r.Ok? <==> l.Found? && CanAccess(caller, consultations[l.index]))
    ensures r.Ok? ==> (r.status == 200 && r.value in consultations
                       && IdString(r.value.id) == id && CanAccess(caller, r.value))
  {
    match FindById(consultations, IdOfConsultation, id)
    case Malformed => Err(ErrorHandler(CastError("Consultation", id)))
    case Missing => Fail(404, "Consultation not found")
    case Found(k) =>
      if !CanAccess(caller, consultations[k]) then Fail(403, "Access denied")
      else Ok(200, consultations[k])
  }

  /** Whether a consultation belongs to the caller's own list. */
  predicate Mine(caller: User, c: Consultation) {
    if caller.role == Patient then c.patientId == caller.id else c.doctorId == caller.id
  }

  /** GET /consultations/my: a patient's consultations or a doctor's,
      newest first; any other role is refused. */
  function MyConsultations(consultations: seq<Consultation>, caller: User)
    : (r: Reply<seq<Consultation>>)
    ensures r.Err? <==> caller.role == Admin
    ensures r.Err? ==> r == Fail(403, "Invalid role")
    ensures r.Ok? ==> r.status == 200 && |r.value| <= |consultations|
    ensures r.Ok? ==> forall c :: c in r.value <==> c in consultations && Mine(caller, c)
  {
    if caller.role == Admin then Fail(403, "Invalid role")
    else
      var mine := Filter(consultations, c => Mine(caller, c));
      ReverseSameElements(mine);
      Ok(200, Reverse(mine))
  }

  /** With creation times increasing in store order, the list is sorted by
      `createdAt`, newest first. */
  lemma MyConsultationsNewestFirst(consultations: seq<Consultation>, caller: User)
    requires StrictlyAscending(consultations, ConsultationCreatedAt)
    ensures var r := MyConsultations(consultations, caller);
      r.Ok? ==> StrictlyDescending(r.value, ConsultationCreatedAt)
  {
    if caller.role != Admin {
      FilterAscending(consultations, c => Mine(caller, c), ConsultationCreatedAt);
      ReverseDescending(Filter(consultations, c => Mine(caller, c)), ConsultationCreatedAt);
    }
  }

  /** PATCH /consultations/:id/status. The requested value is checked first,
      then existence, then access; the new status is applied whatever the
      current one is, and nothing else changes. */
  method UpdateConsultationStatus(store: Store, caller: User, id: string, status: Option<string>)
    returns (r: Reply<Consultation>)
    requires store.Valid()
    modifies store
    ensures store.Valid()
    ensures var requested := if status.Some? then ParseStatus(status.value) else None;
      var l := FindById(old(store.consultations), IdOfConsultation, id);
      && (requested.None? ==> r == Fail(400, "Invalid status"))
      && (requested.Some? && l.Malformed? ==> r == Err(ErrorHandler(CastError("Consultation", id))))
      && (requested.Some? && l.Missing? ==> r == Fail(404, "Consultation not found"))
      && (requested.Some? && l.Found? && !CanAccess(caller, old(store.consultations)[l.index]) ==>
            r == Fail(403, "Access denied"))
      && (r.Ok? <==> requested.Some? && l.Found? && CanAccess(caller, old(store.consultations)[l.index]))
      && (r.Ok? ==>
            && r.status == 200
            && r.value == old(store.consultations)[l.index].(status := requested.value)
            && store.consultations == old(store.consultations)[l.index := r.value])
    ensures r.Err? ==> store.consultations == old(store.consultations)
    ensures store.users == old(store.users) && store.messages == old(store.messages)
    ensures store.audits == old(store.audits) && store.clock == old(store.clock)
  {
    var requested := if status.Some? then ParseStatus(status.value) else None;
    if requested.None? {
      return Fail(400, "Invalid status");
    }
    var l := FindById(store.consultations, IdOfConsultation, id);
    if l.Malformed? {
      return Err(ErrorHandler(CastError("Consultation", id)));
    }
    if l.Missing? {
      return Fail(404, "Consultation not found");
    }
    var c := store.consultations[l.index];
    if !CanAccess(caller, c) {
      return Fail(403, "Access denied");
    }
    store.SetStatus(l.index, requested.value);
    r := Ok(200, store.consultations[l.index]);
  }

  /** GET /consultations/:id/messages: behind the same 404/403 gate, the
      messages of that consultation in store order. */
  function ConsultationMessages(consultations: seq<Consultation>, messages: seq<Message>,
                                caller: User, id: string): (r: Reply<seq<Message>>)
    ensures var l := FindById(consultations, IdOfConsultation, id);
      && (l.Malformed? ==> r == Err(ErrorHandler(CastError("Consultation", id))))
      && (l.Missing? ==> r == Fail(404, "Consultation not found"))
      && (l.Found? && !CanAccess(caller, consultations[l.index]) ==> r == Fail(403, "Access denied"))
      && (r.Ok? <==> l.Found? && CanAccess(caller, consultations[l.index]))
    ensures r.Ok? ==> r.status == 200
    ensures r.Ok? ==> forall m :: m in r.value <==> m in messages && IdString(m.consultationId) == id
  {
    match FindById(consultations, IdOfConsultation, id)
    case Malformed => Err(ErrorHandler(CastError("Consultation", id)))
    case Missing => Fail(404, "Consultation not found")
    case Found(k) =>
      if !CanAccess(caller, consultations[k]) then Fail(403, "Access denied")
      else Ok(200, Filter(messages, (m: Message) => IdString(m.consultationId) == id))
  }

  /** With creation times increasing in store order, the messages come
      oldest first. */
  lemma MessagesOldestFirst(consultations: seq<Consultation>, messages: seq<Message>,
                            caller: User, id: string)
    requires StrictlyAscending(messages, MessageCreatedAt)
    ensures var r := ConsultationMessages(consultations, messages, caller, id);
      r.Ok? ==> StrictlyAscending(r.value, MessageCreatedAt)
  {
    FilterAscending(messages, (m: Message) => IdString(m.consultationId) == id, MessageCreatedAt);
  }

  /** The readers share one gate: a caller who may not see a consultation
      gets the same denial from both, and the denial does not depend on the
      messages stored. */
  lemma ReadersShareGate(consultations: seq<Consultation>, messages: seq<Message>,
                         caller: User, id: string, k: nat)
    requires Keyed(consultations, IdOfConsultation)
    requires k < |consultations| && IdString(k) == id
    requires !CanAccess(caller, consultations[k])
    ensures GetConsultation(consultations, caller, id) == Fail(403, "Access denied")
    ensures ConsultationMessages(consultations, messages, caller, id) == Fail(403, "Access denied")
  {
    assert IdOfConsultation(consultations[k]) == k;
    FoundIsUnique(consultations, IdOfConsultation, id, k);
  }

  /** Absence is reported before access is checked, so an outsider tells a
      stored consultation (403) from the next unassigned identifier (404). */
  lemma {:induction false} OutsiderLearnsExistence(consultations: seq<Consultation>, caller: User, k: nat)
    requires Keyed(consultations, IdOfConsultation)
    requires k < |consultations| && !CanAccess(caller, consultations[k])
    ensures GetConsultation(consultations, caller, IdString(k)) == Fail(403, "Access denied")
    ensures GetConsultation(consultations, caller, IdString(|consultations|)) == Fail(404, "Consultation not found")
  {
    FindAssignedId(consultations, IdOfConsultation, k);
    var next := IdString(|consultations|);
    IdStringWellFormed(|consultations|);
    forall j | 0 <= j < |consultations|
      ensures IdString(IdOfConsultation(consultations[j])) != next
    {
      assert IdOfConsultation(consultations[j]) == j;
      if IdString(j) == next {
        IdStringInjective(j, |consultations|);
      }
    }
  }
}
