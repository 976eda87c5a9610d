/** The user controller: a doctor uploads KYC documents, which are appended
    to the doctor's record, put the doctor back to "pending" review and are
    recorded in a new KYC audit. */
module Users {
  import opened Seqs
  import opened Ids
  import opened Models
  import opened Errors
  import opened Database
  import opened Admin

  /** The public path of each uploaded file, in upload order. */
  function UploadUrls(files: seq<string>): (urls: seq<string>)
    ensures |urls| == |files|
    ensures forall i :: 0 <= i < |files| ==> urls[i] == "/uploads/" + files[i]
    decreases |files|
  {
    if files == [] then [] else ["/uploads/" + files[0]] + UploadUrls(files[1..])
  }

  /** Uploading files in two batches lists the same paths as uploading them
      in one. */
  lemma {:induction false} UploadUrlsAppend(a: seq<string>, b: seq<string>)
    ensures UploadUrls(a + b) == UploadUrls(a) + UploadUrls(b)
    decreases |a|
  {
    if a == [] {
      assert a + b == b;
    } else {
      assert (a + b)[0] == a[0] && (a + b)[1..] == a[1..] + b;
      UploadUrlsAppend(a[1..], b);
    }
  }

  /** The body of a successful upload. */
  datatype KycReceipt = KycReceipt(kycDocs: seq<string>, kycStatus: KycStatus)

  /** POST /users/kyc-upload. Files are checked before the role; a caller
      whose record has gone fails reading it. */
  method UploadKyc(store: Store, caller: User, files: Option<seq<string>>) returns (r: Reply<KycReceipt>)
    requires store.Valid()
    modifies store
    ensures store.Valid()
    ensures files.None? || files.value == [] ==> r == Fail(400, "No files uploaded")
    ensures files.Some? && files.value != [] && caller.role != Doctor ==>
      r == Fail(403, "Only doctors can upload KYC documents")
    ensures files.Some? && files.value != [] && caller.role == Doctor && caller.id >= |old(store.users)| ==>
      r == Err(ErrorHandler(NullPropertyError("kycDocs")))
    ensures r.Ok? <==> files.Some? && files.value != [] && caller.role == Doctor && caller.id < |old(store.users)|
    ensures r.Ok? ==>
      var urls := UploadUrls(files.value);
      var before := old(store.users)[caller.id];
      && r.status == 200
      && r.value == KycReceipt(before.kycDocs + urls, KycPending)
      && store.users == old(store.users)[caller.id := before.(kycDocs := before.kycDocs + urls, kycStatus := KycPending)]
      && store.audits == old(store.audits)
                         + [KycAudit(|old(store.audits)|, caller.id, urls, None, None, None, old(store.clock))]
      && LatestAudit(store.audits, caller.id) == Some(|old(store.audits)|)
      && store.clock == old(store.clock) + 1
    ensures r.Err? ==>
      store.users == old(store.users) && store.audits == old(store.audits) && store.clock == old(store.clock)
    ensures store.consultations == old(store.consultations) && store.messages == old(store.messages)
  {
    if files.None? || files.value == [] {
      return Fail(400, "No files uploaded");
    }
    if caller.role != Doctor {
      return Fail(403, "Only doctors can upload KYC documents");
    }
    var urls := UploadUrls(files.value);
    if caller.id >= |store.users| {
      return Err(ErrorHandler(NullPropertyError("kycDocs")));
    }
    var user := store.users[caller.id];
    var updated := user.(kycDocs := user.kycDocs + urls, kycStatus := KycPending);
    store.UpdateUser(caller.id, updated);
    var _ := store.InsertAudit(caller.id, urls, None, None, None);
    r := Ok(200, KycReceipt(updated.kycDocs, updated.kycStatus));
  }
}
