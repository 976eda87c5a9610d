/** The four collections as in-memory sequences, `findById` over them, and
    the store operations the handlers use to create and update records.
    Identifiers are assigned on insert (a record's id is its position) and
    timestamps come from a clock that only moves forward. */
module Database {
  import opened Seqs
  import opened Ids
  import opened Models

  /** What `findById` yields for a client string. */
  datatype Lookup = Found(index: nat) | Missing | Malformed

  /** `findById`: a string that is no identifier fails to cast; otherwise the
      record whose identifier it spells, if there is one. */
  function FindById<T>(xs: seq<T>, idOf: T -> Id, id: string): (r: Lookup)
    ensures r.Malformed? <==> !WellFormedId(id)
    ensures r.Found? ==> r.index < |xs| && IdString(idOf(xs[r.index])) == id
    ensures r.Missing? ==> forall k :: 0 <= k < |xs| ==> IdString(idOf(xs[k])) != id
  {
    if !WellFormedId(id) then Malformed
    else
      match FirstIndex(xs, x => IdString(idOf(x)) == id)
      case None => Missing
      case Some(k) => Found(k)
  }

  /** Each record's identifier is its position. */
  predicate Keyed<T>(xs: seq<T>, idOf: T -> Id) {
    forall i :: 0 <= i < |xs| ==> idOf(xs[i]) == i
  }

  /** Creation times strictly increase along the collection and are all
      earlier than the clock. */
  predicate Chronological<T>(xs: seq<T>, stamp: T -> int, clock: nat) {
    StrictlyAscending(xs, stamp) && forall i :: 0 <= i < |xs| ==> 0 <= stamp(xs[i]) < clock
  }

  /** Appending the record whose id is the next position keeps a
      collection keyed. */
  lemma AppendKeyed<T>(xs: seq<T>, x: T, idOf: T -> Id)
    requires Keyed(xs, idOf) && idOf(x) == |xs|
    ensures Keyed(xs + [x], idOf)
  {
    var ys := xs + [x];
    forall i | 0 <= i < |ys| ensures idOf(ys[i]) == i {
      if i < |xs| {
        assert ys[i] == xs[i];
      }
    }
  }

  /** Appending a record stamped with the clock, and moving the clock on,
      keeps a collection chronological. */
  lemma AppendChronological<T>(xs: seq<T>, x: T, stamp: T -> int, clock: nat)
    requires Chronological(xs, stamp, clock) && stamp(x) == clock
    ensures Chronological(xs + [x], stamp, clock + 1)
  {
    var ys := xs + [x];
    forall i, j | 0 <= i < j < |ys| ensures stamp(ys[i]) < stamp(ys[j]) {
      assert ys[i] == xs[i];
      if j < |xs| {
        assert ys[j] == xs[j];
      }
    }
    forall i | 0 <= i < |ys| ensures 0 <= stamp(ys[i]) < clock + 1 {
      if i < |xs| {
        assert ys[i] == xs[i];
      }
    }
  }

  /** Moving the clock on keeps a collection chronological. */
  lemma LaterClock<T>(xs: seq<T>, stamp: T -> int, clock: nat)
    requires Chronological(xs, stamp, clock)
    ensures Chronological(xs, stamp, clock + 1)
  {
  }

  /** In a keyed collection the spelling of an assigned identifier finds
      exactly the record it was assigned to. */
  lemma FindAssignedId<T>(xs: seq<T>, idOf: T -> Id, n: nat)
    requires Keyed(xs, idOf) && n < |xs|
    ensures FindById(xs, idOf, IdString(n)) == Found(n)
  {
    IdStringWellFormed(n);
    var r := FindById(xs, idOf, IdString(n));
    assert idOf(xs[n]) == n;
    if r.Found? {
      assert idOf(xs[r.index]) == r.index;
      IdStringInjective(r.index, n);
    }
  }

  /** In a keyed collection only the record with that identifier matches. */
  lemma FoundIsUnique<T>(xs: seq<T>, idOf: T -> Id, id: string, k: nat)
    requires Keyed(xs, idOf) && k < |xs| && IdString(idOf(xs[k])) == id
    ensures FindById(xs, idOf, id) == Found(k)
  {
    FindAssignedId(xs, idOf, k);
  }

  /** The unique index on `email`: no two users share an address. */
  predicate DistinctEmails(users: seq<User>) {
    forall i, j :: 0 <= i < j < |users| ==> users[i].email != users[j].email
  }

  class Store {
    var users: seq<User>
    var consultations: seq<Consultation>
    var messages: seq<Message>
    var audits: seq<KycAudit>
    var clock: nat

    /** Identifiers are positions, timestamps increase with insertion, every
        consultation's patient is a stored patient and its doctor a stored
        doctor, and every message belongs to a stored consultation and carries
        trimmed non-empty text; e-mail addresses are unique. */
    ghost predicate Valid()
      reads this
    {
      && Keyed(users, IdOfUser) && Keyed(consultations, IdOfConsultation)
      && Keyed(messages, IdOfMessage) && Keyed(audits, IdOfAudit)
      && DistinctEmails(users)
      && Chronological(users, UserCreatedAt, clock)
      && Chronological(consultations, ConsultationCreatedAt, clock)
      && Chronological(messages, MessageCreatedAt, clock)
      && Chronological(audits, AuditCreatedAt, clock)
      && (forall i :: 0 <= i < |consultations| ==>
            && consultations[i].patientId < |users| && users[consultations[i].patientId].role == Patient
            && consultations[i].doctorId < |users| && users[consultations[i].doctorId].role == Doctor)
      && (forall i :: 0 <= i < |messages| ==>
            messages[i].consultationId < |consultations| && ValidMessageText(messages[i].text))
    }

    constructor ()
      ensures Valid()
      ensures users == [] && consultations == [] && messages == [] && audits == [] && clock == 0
    {
      users, consultations, messages, audits, clock := [], [], [], [], 0;
    }

    /** Read the clock, which then moves on. */
    method Tick() returns (t: nat)
      requires Valid()
      modifies this
      ensures Valid()
      ensures t == old(clock) && clock == t + 1
      ensures users == old(users) && consultations == old(consultations)
      ensures messages == old(messages) && audits == old(audits)
    {
      t := clock;
      LaterClock(users, UserCreatedAt, clock);
      LaterClock(consultations, ConsultationCreatedAt, clock);
      LaterClock(messages, MessageCreatedAt, clock);
      LaterClock(audits, AuditCreatedAt, clock);
      clock := clock + 1;
    }

    /** Insert a user; the unique index refuses an address already in use. */
    method InsertUser(draft: User) returns (u: User)
      requires Valid() && forall v :: v in users ==> v.email != draft.email
      modifies this
      ensures Valid()
      ensures u == draft.(id := |old(users)|, createdAt := old(clock))
      ensures users == old(users) + [u] && clock == old(clock) + 1
      ensures consultations == old(consultations) && messages == old(messages) && audits == old(audits)
    {
      u := draft.(id := |users|, createdAt := clock);
      AppendKeyed(users, u, IdOfUser);
      AppendChronological(users, u, UserCreatedAt, clock);
      LaterClock(consultations, ConsultationCreatedAt, clock);
      LaterClock(messages, MessageCreatedAt, clock);
      LaterClock(audits, AuditCreatedAt, clock);
      assert DistinctEmails(users + [u]) by {
        var ys := users + [u];
        forall i, j | 0 <= i < j < |ys| ensures ys[i].email != ys[j].email {
          assert ys[i] == users[i] && ys[i] in users;
          if j < |users| {
            assert ys[j] == users[j];
          }
        }
      }
      users := users + [u];
      clock := clock + 1;
    }

    /** Save a changed user; identity, e-mail, role and creation time never change. */
    method UpdateUser(i: nat, u: User)
      requires Valid() && i < |users|
      requires u.id == users[i].id && u.email == users[i].email
      requires u.role == users[i].role && u.createdAt == users[i].createdAt
      modifies this
      ensures Valid()
      ensures users == old(users)[i := u] && clock == old(clock)
      ensures consultations == old(consultations) && messages == old(messages) && audits == old(audits)
    {
      var ys := users[i := u];
      forall a, b | 0 <= a < b < |ys|
        ensures ys[a].email != ys[b].email && UserCreatedAt(ys[a]) < UserCreatedAt(ys[b])
      {
        assert ys[a].email == users[a].email && ys[a].createdAt == users[a].createdAt;
        assert ys[b].email == users[b].email && ys[b].createdAt == users[b].createdAt;
      }
      users := ys;
    }

    method InsertConsultation(patientId: Id, doctorId: Id, specialization: string) returns (c: Consultation)
      requires Valid()
      requires patientId < |users| && users[patientId].role == Patient
      requires doctorId < |users| && users[doctorId].role == Doctor
      modifies this
      ensures Valid()
      ensures c == Consultation(|old(consultations)|, patientId, doctorId, Pending, specialization, old(clock))
      ensures consultations == old(consultations) + [c] && clock == old(clock) + 1
      ensures users == old(users) && messages == old(messages) && audits == old(audits)
    {
      c := Consultation(|consultations|, patientId, doctorId, Pending, specialization, clock);
      AppendKeyed(consultations, c, IdOfConsultation);
      AppendChronological(consultations, c, ConsultationCreatedAt, clock);
      LaterClock(users, UserCreatedAt, clock);
      LaterClock(messages, MessageCreatedAt, clock);
      LaterClock(audits, AuditCreatedAt, clock);
      consultations := consultations + [c];
      clock := clock + 1;
    }

    /** Save a consultation with a new status; nothing else about it changes. */
    method SetStatus(i: nat, status: Status)
      requires Valid() && i < |consultations|
      modifies this
      ensures Valid()
      ensures consultations == old(consultations)[i := old(consultations)[i].(status := status)]
      ensures users == old(users) && messages == old(messages) && audits == old(audits) && clock == old(clock)
    {
      consultations := consultations[i := consultations[i].(status := status)];
    }

    method InsertMessage(consultationId: Id, fromUserId: Id, toUserId: Id, text: string) returns (m: Message)
      requires Valid() && consultationId < |consultations| && ValidMessageText(text)
      modifies this
      ensures Valid()
      ensures m == Message(|old(messages)|, consultationId, fromUserId, toUserId, text, old(clock))
      ensures messages == old(messages) + [m] && clock == old(clock) + 1
      ensures users == old(users) && consultations == old(consultations) && audits == old(audits)
    {
      m := Message(|messages|, consultationId, fromUserId, toUserId, text, clock);
      AppendKeyed(messages, m, IdOfMessage);
      AppendChronological(messages, m, MessageCreatedAt, clock);
      LaterClock(users, UserCreatedAt, clock);
      LaterClock(consultations, ConsultationCreatedAt, clock);
      LaterClock(audits, AuditCreatedAt, clock);
      messages := messages + [m];
      clock := clock + 1;
    }

    method InsertAudit(userId: Id, submittedDocs: seq<string>, reviewer: Option<Id>,
                       notes: Option<string>, reviewedAt: Option<nat>) returns (a: KycAudit)
      requires Valid()
      modifies this
      ensures Valid()
      ensures a == KycAudit(|old(audits)|, userId, submittedDocs, reviewer, notes, reviewedAt, old(clock))
      ensures audits == old(audits) + [a] && clock == old(clock) + 1
      ensures users == old(users) && consultations == old(consultations) && messages == old(messages)
    {
      a := KycAudit(|audits|, userId, submittedDocs, reviewer, notes, reviewedAt, clock);
      AppendKeyed(audits, a, IdOfAudit);
      AppendChronological(audits, a, AuditCreatedAt, clock);
      LaterClock(users, UserCreatedAt, clock);
      LaterClock(consultations, ConsultationCreatedAt, clock);
      LaterClock(messages, MessageCreatedAt, clock);
      audits := audits + [a];
      clock := clock + 1;
    }

    /** Save a changed audit; identity and creation time never change. */
    method UpdateAudit(i: nat, a: KycAudit)
      requires Valid() && i < |audits|
      requires a.id == audits[i].id && a.createdAt == audits[i].createdAt
      modifies this
      ensures Valid()
      ensures audits == old(audits)[i := a] && clock == old(clock)
      ensures users == old(users) && consultations == old(consultations) && messages == old(messages)
    {
      audits := audits[i := a];
    }
  }
}
