/** The admin controller: listing doctors by KYC status, and reviewing a
    doctor, which records the decision on the user and on the doctor's most
    recent KYC audit (or on a new one when there is none). */
module Admin {
  import opened Seqs
  import opened Ids
  import opened Models
  import opened Errors
  import opened Database

  /** The KYC status named by the `status` query parameter; absent means
      "pending". */
  function QueriedStatus(status: Option<string>): string {
    if status.Some? then status.value else "pending"
  }

  /** Whether `u` is listed for the query: a doctor whose KYC status has
      exactly the queried name. */
  predicate Listed(u: User, status: Option<string>) {
    u.role == Doctor && KycName(u.kycStatus) == QueriedStatus(status)
  }

  /** GET /admin/doctors: the doctors whose KYC status has the queried name,
      in store order. */
  function PendingDoctors(users: seq<User>, status: Option<string>): (r: seq<User>)
    ensures |r| <= |users|
    ensures forall u :: u in r <==> u in users && Listed(u, status)
  {
    Filter(users, (u: User) => Listed(u, status))
  }

  /** Without a query the list is the doctors still waiting for review. */
  lemma DefaultListsPending(users: seq<User>)
    ensures forall u :: u in PendingDoctors(users, None) <==> u in users && u.role == Doctor && u.kycStatus == KycPending
  {
  }

  /** A status that names no KYC state lists nobody. */
  lemma UnknownStatusListsNobody(users: seq<User>, status: string)
    requires forall k :: KycName(k) != status
    ensures forall u :: u !in PendingDoctors(users, Some(status))
  {
  }

  /** The decision an `action` names: "approve" or "reject", nothing else. */
  function ReviewDecision(action: Option<string>): (r: Option<KycStatus>)
    ensures r.Some? <==> action == Some("approve") || action == Some("reject")
    ensures r == Some(KycApproved) <==> action == Some("approve")
    ensures r == Some(KycRejected) <==> action == Some("reject")
  {
    if action == Some("approve") then Some(KycApproved)
    else if action == Some("reject") then Some(KycRejected)
    else None
  }

  /** The audit `findOne({ userId }).sort({ createdAt: -1 })` picks: the last
      one recorded for the user. */
  function LatestAudit(audits: seq<KycAudit>, userId: Id): (r: Option<nat>)
    ensures r.Some? ==> r.value < |audits| && audits[r.value].userId == userId
    ensures r.None? <==> forall a :: a in audits ==> a.userId != userId
  {
    LastIndex(audits, (a: KycAudit) => a.userId == userId)
  }

  /** With creation times increasing in store order, the last audit of a
      user is the one with the latest `createdAt`. */
  lemma LatestAuditIsNewest(audits: seq<KycAudit>, userId: Id)
    requires StrictlyAscending(audits, AuditCreatedAt)
    ensures var r := LatestAudit(audits, userId);
      r.Some? ==> forall j :: 0 <= j < |audits| && j != r.value && audits[j].userId == userId ==>
        audits[j].createdAt < audits[r.value].createdAt
  {
    var r := LatestAudit(audits, userId);
    if r.Some? {
      forall j | 0 <= j < |audits| && j != r.value && audits[j].userId == userId
        ensures audits[j].createdAt < audits[r.value].createdAt
      {
        assert j < r.value;
        assert AuditCreatedAt(audits[j]) < AuditCreatedAt(audits[r.value]);
      }
    }
  }

  /** PATCH /admin/doctors/:id. The action is checked before any lookup;
      only a stored doctor is reviewed. */
  method ReviewDoctor(store: Store, reviewer: Id, id: string, action: Option<string>,
                      notes: Option<string>) returns (r: Reply<User>)
    requires store.Valid()
    modifies store
    ensures store.Valid()
    ensures var decision := ReviewDecision(action);
      var l := FindById(old(store.users), IdOfUser, id);
      && (decision.None? ==> r == Fail(400, "Invalid action. Use \"approve\" or \"reject\""))
      && (decision.Some? && l.Malformed? ==> r == Err(ErrorHandler(CastError("User", id))))
      && (decision.Some? && (l.Missing? || (l.Found? && old(store.users)[l.index].role != Doctor)) ==>
            r == Fail(404, "Doctor not found"))
      && (r.Ok? <==> decision.Some? && l.Found? && old(store.users)[l.index].role == Doctor)
      && (r.Ok? ==>
            && r.status == 200
            && r.value == old(store.users)[l.index].(kycStatus := decision.value)
            && store.users == old(store.users)[l.index := r.value]
            && store.clock == old(store.clock) + 1)
    ensures r.Ok? ==>
      var k := r.value.id;
      var latest := LatestAudit(old(store.audits), k);
      && (latest.Some? ==>
            store.audits == old(store.audits)[latest.value :=
              old(store.audits)[latest.value].(adminReviewer := Some(reviewer), reviewNotes := notes,
                                               reviewedAt := Some(old(store.clock)))])
      && (latest.None? ==>
            store.audits == old(store.audits) +
              [KycAudit(|old(store.audits)|, k, [], Some(reviewer), notes, Some(old(store.clock)), old(store.clock))])
    ensures r.Err? ==>
      store.users == old(store.users) && store.audits == old(store.audits) && store.clock == old(store.clock)
    ensures store.consultations == old(store.consultations) && store.messages == old(store.messages)
  {
    var decision := ReviewDecision(action);
    if decision.None? {
      return Fail(400, "Invalid action. Use \"approve\" or \"reject\"");
    }
    var l := FindById(store.users, IdOfUser, id);
    if l.Malformed? {
      return Err(ErrorHandler(CastError("User", id)));
    }
    if l.Missing? || store.users[l.index].role != Doctor {
      return Fail(404, "Doctor not found");
    }
    var k := l.index;
    assert IdOfUser(store.users[k]) == k;
    var doctor := store.users[k].(kycStatus := decision.value);
    store.UpdateUser(k, doctor);
    var latest := LatestAudit(store.audits, k);
    if latest.Some? {
      var now := store.Tick();
      var audit := store.audits[latest.value];
      store.UpdateAudit(latest.value,
                        audit.(adminReviewer := Some(reviewer), reviewNotes := notes, reviewedAt := Some(now)));
    } else {
      var _ := store.InsertAudit(k, [], Some(reviewer), notes, Some(store.clock));
    }
    r := Ok(200, doctor);
  }
}
