/**
 * The company's document store: the validity of stored documents with its
 * daily expiry check and revocation, and the requests by which an employee
 * asks for temporary access to documents, which the administration
 * approves; a daily job marks an approved request expired once its expiry
 * date has passed (the folder and document grants themselves are not
 * touched).
 */
module DocumentManagement {
  import opened Common
  import AL = AssetLegalDocument
  import AM = AssetManagement

  // ---------------------------------------------------------------------
  // Document validity
  // ---------------------------------------------------------------------

  datatype DocState = Active | ExpiringSoon | Expired | Revoked

  /** The first search of the expiry check: active documents expiring after today but within 30 days. */
  predicate ExpiringWindow(isFolder: bool, st: DocState, validity: Option<Day>, today: Day) {
    !isFolder && st == Active && validity.Some? && today < validity.value <= today + 30
  }

  /** The second search: active or expiring documents whose validity date is today or earlier. */
  predicate PastValidity(isFolder: bool, st: DocState, validity: Option<Day>, today: Day) {
    !isFolder && (st == Active || st == ExpiringSoon) && validity.Some? && validity.value <= today
  }

  /** The validity state a document has after the expiry check. */
  function AfterExpiryCheck(isFolder: bool, st: DocState, validity: Option<Day>, today: Day): (r: DocState)
    ensures isFolder || st == Revoked || st == Expired || validity.None? ==> r == st
    ensures validity.Some? && validity.value > today + 30 ==> r == st
    ensures r != st ==> (r == ExpiringSoon <==> validity.value > today) && (r == Expired <==> validity.value <= today)
  {
    if ExpiringWindow(isFolder, st, validity, today) then ExpiringSoon
    else if PastValidity(isFolder, st, validity, today) then Expired
    else st
  }

  /** The two searches never both take a document, and the check run twice on one day changes nothing more. */
  lemma AfterExpiryCheckIdempotent(isFolder: bool, st: DocState, validity: Option<Day>, today: Day)
    ensures !(ExpiringWindow(isFolder, st, validity, today) && PastValidity(isFolder, st, validity, today))
    ensures var once := AfterExpiryCheck(isFolder, st, validity, today);
      AfterExpiryCheck(isFolder, once, validity, today) == once
  {
  }

  /**
   * The document store counts a validity date of today as expired, where
   * the asset documents' check still counts it as expiring.
   */
  lemma ValidityTodayDiffersFromAssets(today: Day)
    ensures AfterExpiryCheck(false, Active, Some(today), today) == Expired
    ensures AM.AfterCron(AL.Active, Some(today), today) == AL.ExpiringSoon
  {
  }

  class Document {
    const isFolder: bool
    var active: bool
    var name: string
    var validityDate: Option<Day>
    var daysToExpire: int
    var docState: DocState
    var responsibleUserId: Option<nat>

    /** A new document: validity state active, `days_to_expire` computed. */
    constructor (isFolder: bool, name: string, validityDate: Option<Day>, responsibleUserId: Option<nat>, today: Day)
      ensures this.isFolder == isFolder && active && this.name == name && this.validityDate == validityDate
      ensures this.responsibleUserId == responsibleUserId
      ensures docState == Active && daysToExpire == DaysToExpire(validityDate, today)
    {
      this.isFolder := isFolder;
      active := true;
      this.name := name;
      this.validityDate := validityDate;
      this.responsibleUserId := responsibleUserId;
      docState := Active;
      daysToExpire := if validityDate.Some? then validityDate.value - today else 0;
    }

    /** `action_revoke_document`, from any validity state. */
    method ActionRevokeDocument()
      modifies this`docState
      ensures docState == Revoked
    {
      docState := Revoked;
    }

    /** `action_reactivate_document`, from any validity state. */
    method ActionReactivateDocument()
      modifies this`docState
      ensures docState == Active
    {
      docState := Active;
    }
  }

  /** `_compute_days_to_expire` over a record set. */
  method ComputeDocumentDaysToExpire(docs: seq<Document>, today: Day)
    modifies (set d | d in docs)`daysToExpire
    ensures forall d :: d in docs ==> d.daysToExpire == DaysToExpire(d.validityDate, today)
  {
    var k := 0;
    while k < |docs|
      invariant 0 <= k <= |docs|
      invariant forall d :: d in docs[..k] ==> d.daysToExpire == DaysToExpire(d.validityDate, today)
    {
      var rec := docs[k];
      if rec.validityDate.Some? {
        rec.daysToExpire := rec.validityDate.value - today;
      } else {
        rec.daysToExpire := 0;
      }
      assert docs[..k + 1] == docs[..k] + [rec];
      k := k + 1;
    }
    assert docs[..k] == docs;
  }

  /**
   * `_cron_document_expiry_check` over the documents in `docs` (archived
   * ones are not searched). It returns the documents warned as expiring
   * and the documents closed as expired, in search order.
   */
  method CronDocumentExpiryCheck(docs: seq<Document>, today: Day)
    returns (expiring: seq<Document>, expired: seq<Document>)
    requires forall i, j :: 0 <= i < j < |docs| ==> docs[i] != docs[j]
    modifies (set d | d in docs)`docState
    ensures forall i :: 0 <= i < |docs| ==>
      docs[i].docState == (if docs[i].active then AfterExpiryCheck(docs[i].isFolder, old(docs[i].docState), docs[i].validityDate, today)
                           else old(docs[i].docState))
    ensures forall d :: d in expiring <==>
      d in docs && d.active && ExpiringWindow(d.isFolder, old(d.docState), d.validityDate, today)
    ensures forall d :: d in expired <==>
      d in docs && d.active && PastValidity(d.isFolder, old(d.docState), d.validityDate, today)
  {
    expiring := WarnExpiringDocuments(docs, today);
    expired := ExpireDocuments(docs, today);
  }

  /** The validity state after the first search alone. */
  function AfterWarning(isFolder: bool, st: DocState, validity: Option<Day>, today: Day): (r: DocState)
    ensures PastValidity(isFolder, r, validity, today) <==> PastValidity(isFolder, st, validity, today)
    ensures (if PastValidity(isFolder, r, validity, today) then Expired else r) ==
      AfterExpiryCheck(isFolder, st, validity, today)
  {
    if ExpiringWindow(isFolder, st, validity, today) then ExpiringSoon else st
  }

  /** The first search: documents expiring within thirty days are marked as expiring. */
  method WarnExpiringDocuments(docs: seq<Document>, today: Day) returns (expiring: seq<Document>)
    requires forall i, j :: 0 <= i < j < |docs| ==> docs[i] != docs[j]
    modifies (set d | d in docs)`docState
    ensures forall d :: d in docs ==>
      d.docState == (if d.active then AfterWarning(d.isFolder, old(d.docState), d.validityDate, today) else old(d.docState))
    ensures forall d :: d in expiring <==>
      d in docs && d.active && ExpiringWindow(d.isFolder, old(d.docState), d.validityDate, today)
  {
    expiring := [];
    var k := 0;
    while k < |docs|
      invariant 0 <= k <= |docs|
      invariant forall i :: 0 <= i < k ==>
        docs[i].docState == (if docs[i].active then AfterWarning(docs[i].isFolder, old(docs[i].docState), docs[i].validityDate, today)
                             else old(docs[i].docState))
      invariant forall i :: k <= i < |docs| ==> docs[i].docState == old(docs[i].docState)
      invariant forall d :: d in expiring <==>
        d in docs[..k] && d.active && ExpiringWindow(d.isFolder, old(d.docState), d.validityDate, today)
    {
      var doc := docs[k];
      if doc.active && ExpiringWindow(doc.isFolder, doc.docState, doc.validityDate, today) {
        doc.docState := ExpiringSoon;
        expiring := expiring + [doc];
      }
      assert docs[..k + 1] == docs[..k] + [doc];
      k := k + 1;
    }
    assert docs[..k] == docs;
  }

  /** The second search: documents whose validity date has come are closed as expired. */
  method ExpireDocuments(docs: seq<Document>, today: Day) returns (expired: seq<Document>)
    requires forall i, j :: 0 <= i < j < |docs| ==> docs[i] != docs[j]
    modifies (set d | d in docs)`docState
    ensures forall d :: d in docs ==>
      d.docState == (if d.active && PastValidity(d.isFolder, old(d.docState), d.validityDate, today) then Expired
                     else old(d.docState))
    ensures forall d :: d in expired <==>
      d in docs && d.active && PastValidity(d.isFolder, old(d.docState), d.validityDate, today)
  {
    expired := [];
    var k := 0;
    while k < |docs|
      invariant 0 <= k <= |docs|
      invariant forall i :: 0 <= i < k ==>
        docs[i].docState == (if docs[i].active && PastValidity(docs[i].isFolder, old(docs[i].docState), docs[i].validityDate, today)
                             then Expired else old(docs[i].docState))
      invariant forall i :: k <= i < |docs| ==> docs[i].docState == old(docs[i].docState)
      invariant forall d :: d in expired <==>
        d in docs[..k] && d.active && PastValidity(d.isFolder, old(d.docState), d.validityDate, today)
    {
      var doc := docs[k];
      if doc.active && PastValidity(doc.isFolder, doc.docState, doc.validityDate, today) {
        doc.docState := Expired;
        expired := expired + [doc];
      }
      assert docs[..k + 1] == docs[..k] + [doc];
      k := k + 1;
    }
    assert docs[..k] == docs;
  }

  // ---------------------------------------------------------------------
  // Access requests
  // ---------------------------------------------------------------------

  datatype RequestState = RDraft | Submitted | Approved | Rejected | RExpired

  datatype AccessRole = View | Edit

  datatype AccessDuration = OneDay | ThreeDays | OneWeek | OneMonth | Permanent

  /** The selection value of a limited duration, in days. */
  function DurationDays(d: AccessDuration): (n: nat)
    requires d != Permanent
    ensures n >= 1
  {
    match d
    case OneDay => 1
    case ThreeDays => 3
    case OneWeek => 7
    case OneMonth => 30
  }

  /** The expiry an approval at `now` sets: none for a permanent grant, else the duration later. */
  function ExpiryFor(d: AccessDuration, now: Instant): (e: Option<Instant>)
    ensures e.None? <==> d == Permanent
    ensures e.Some? ==> e.value == now + DurationDays(d) * SecondsPerDay && e.value > now
  {
    if d == Permanent then None else Some(now + DurationDays(d) * SecondsPerDay)
  }

  /** A `documents.access` record. */
  datatype Grant = Grant(documentId: nat, partnerId: Option<nat>, role: AccessRole, expiration: Option<Instant>)

  datatype LogAction = AccessGranted

  /** A `trasas.doc.access.log` record. */
  datatype LogEntry = LogEntry(documentId: nat, userId: nat, action: LogAction)

  /** The grants an approval creates: one per requested document, then one for the folder when set. */
  function GrantsFor(documentIds: seq<nat>, folderId: Option<nat>, partnerId: Option<nat>, role: AccessRole,
                     expiry: Option<Instant>): (gs: seq<Grant>)
    ensures |gs| == |documentIds| + (if folderId.Some? then 1 else 0)
    ensures forall i :: 0 <= i < |documentIds| ==> gs[i].documentId == documentIds[i]
    ensures folderId.Some? ==> gs[|gs| - 1].documentId == folderId.value
    ensures forall g :: g in gs ==> g.partnerId == partnerId && g.role == role && g.expiration == expiry
  {
    seq(|documentIds|, i requires 0 <= i < |documentIds| => Grant(documentIds[i], partnerId, role, expiry)) +
    (if folderId.Some? then [Grant(folderId.value, partnerId, role, expiry)] else [])
  }

  /** The log an approval writes: one `access_granted` entry per requested document. */
  function LogsFor(documentIds: seq<nat>, userId: nat): (ls: seq<LogEntry>)
    ensures |ls| == |documentIds|
    ensures forall i :: 0 <= i < |documentIds| ==> ls[i] == LogEntry(documentIds[i], userId, AccessGranted)
  {
    seq(|documentIds|, i requires 0 <= i < |documentIds| => LogEntry(documentIds[i], userId, AccessGranted))
  }

  /** The grants and log entries the store holds. */
  class AccessStore {
    var grants: seq<Grant>
    var logs: seq<LogEntry>

    constructor ()
      ensures grants == [] && logs == []
    {
      grants := [];
      logs := [];
    }

    /** The `documents.access` records of one approval, created document by document, then the folder's. */
    method AddGrants(documentIds: seq<nat>, folderId: Option<nat>, partnerId: Option<nat>, role: AccessRole,
                     expiry: Option<Instant>)
      modifies this`grants
      ensures grants == old(grants) + GrantsFor(documentIds, folderId, partnerId, role, expiry)
    {
      var k := 0;
      while k < |documentIds|
        invariant 0 <= k <= |documentIds|
        invariant grants == old(grants) + GrantsFor(documentIds[..k], None, partnerId, role, expiry)
      {
        grants := grants + [Grant(documentIds[k], partnerId, role, expiry)];
        assert GrantsFor(documentIds[..k + 1], None, partnerId, role, expiry) ==
          GrantsFor(documentIds[..k], None, partnerId, role, expiry) + [Grant(documentIds[k], partnerId, role, expiry)];
        k := k + 1;
      }
      assert documentIds[..k] == documentIds;
      assert GrantsFor(documentIds, folderId, partnerId, role, expiry) ==
        GrantsFor(documentIds, None, partnerId, role, expiry) +
        (if folderId.Some? then [Grant(folderId.value, partnerId, role, expiry)] else []);
      if folderId.Some? {
        grants := grants + [Grant(folderId.value, partnerId, role, expiry)];
      }
    }

    /** The `access_granted` log entries of one approval, one per document. */
    method AddLogs(documentIds: seq<nat>, userId: nat)
      modifies this`logs
      ensures logs == old(logs) + LogsFor(documentIds, userId)
    {
      var k := 0;
      while k < |documentIds|
        invariant 0 <= k <= |documentIds|
        invariant logs == old(logs) + LogsFor(documentIds[..k], userId)
      {
        logs := logs + [LogEntry(documentIds[k], userId, AccessGranted)];
        assert LogsFor(documentIds[..k + 1], userId) == LogsFor(documentIds[..k], userId) + [LogEntry(documentIds[k], userId, AccessGranted)];
        k := k + 1;
      }
      assert documentIds[..k] == documentIds;
    }
  }

  datatype RequestError = NotDraft | NotSubmitted

  /** The state an expiry run leaves a request in: approved requests whose expiry has come are expired. */
  function AfterAccessCron(st: RequestState, expiry: Option<Instant>, now: Instant): (r: RequestState)
    ensures r != st <==> st == Approved && expiry.Some? && expiry.value <= now
    ensures r != st ==> r == RExpired
  {
    if st == Approved && expiry.Some? && expiry.value <= now then RExpired else st
  }

  /** Permanent access never expires, however late the expiry run. */
  lemma PermanentAccessNeverExpires(approvedAt: Instant, now: Instant)
    ensures AfterAccessCron(Approved, ExpiryFor(Permanent, approvedAt), now) == Approved
  {
  }

  /** A limited request is marked expired by the first run at or after the end of its duration, and not before. */
  lemma LimitedAccessExpiresOnTime(d: AccessDuration, approvedAt: Instant, now: Instant)
    requires d != Permanent
    ensures AfterAccessCron(Approved, ExpiryFor(d, approvedAt), now) == RExpired <==>
      now >= approvedAt + DurationDays(d) * SecondsPerDay
  {
  }

  class AccessRequest {
    var name: string
    const userId: nat
    const partnerId: Option<nat>
    var documentIds: seq<nat>
    var folderId: Option<nat>
    var accessType: AccessRole
    var accessDuration: AccessDuration
    var accessStartDate: Option<Instant>
    var accessExpiryDate: Option<Instant>
    var state: RequestState
    var approvedBy: Option<nat>

    /** `create`: a draft request with its system name. */
    constructor (givenName: Option<string>, drawn: string, userId: nat, partnerId: Option<nat>,
                 documentIds: seq<nat>, folderId: Option<nat>, accessType: AccessRole, accessDuration: AccessDuration)
      ensures name == SystemName(givenName, drawn) && this.userId == userId && this.partnerId == partnerId
      ensures this.documentIds == documentIds && this.folderId == folderId
      ensures this.accessType == accessType && this.accessDuration == accessDuration
      ensures state == RDraft && accessStartDate.None? && accessExpiryDate.None? && approvedBy.None?
    {
      name := SystemName(givenName, drawn);
      this.userId := userId;
      this.partnerId := partnerId;
      this.documentIds := documentIds;
      this.folderId := folderId;
      this.accessType := accessType;
      this.accessDuration := accessDuration;
      accessStartDate := None;
      accessExpiryDate := None;
      state := RDraft;
      approvedBy := None;
    }

    /** `action_submit`: only a draft request is submitted. */
    method ActionSubmit() returns (err: Option<RequestError>)
      modifies this`state
      ensures old(state) == RDraft ==> err.None? && state == Submitted
      ensures old(state) != RDraft ==> err == Some(NotDraft) && state == old(state)
    {
      if state != RDraft {
        return Some(NotDraft);
      }
      state := Submitted;
      err := None;
    }

    /** `action_reject`: only a submitted request is rejected. */
    method ActionReject() returns (err: Option<RequestError>)
      modifies this`state
      ensures old(state) == Submitted ==> err.None? && state == Rejected
      ensures old(state) != Submitted ==> err == Some(NotSubmitted) && state == old(state)
    {
      if state != Submitted {
        return Some(NotSubmitted);
      }
      state := Rejected;
      err := None;
    }

    /**
     * `action_approve` by user `approver` at `now`: only a submitted
     * request; it records the approval and its window, creates the grants
     * and writes the log.
     */
    method ActionApprove(approver: nat, now: Instant, store: AccessStore) returns (err: Option<RequestError>)
      modifies this`state, this`approvedBy, this`accessStartDate, this`accessExpiryDate, store
      ensures old(state) != Submitted ==>
        err == Some(NotSubmitted) && state == old(state) && unchanged(store) &&
        approvedBy == old(approvedBy) && accessStartDate == old(accessStartDate) && accessExpiryDate == old(accessExpiryDate)
      ensures old(state) == Submitted ==>
        err.None? && state == Approved && approvedBy == Some(approver) && accessStartDate == Some(now) &&
        accessExpiryDate == ExpiryFor(accessDuration, now) &&
        store.grants == old(store.grants) + GrantsFor(documentIds, folderId, partnerId, accessType, accessExpiryDate) &&
        store.logs == old(store.logs) + LogsFor(documentIds, userId)
    {
      if state != Submitted {
        return Some(NotSubmitted);
      }
      var expiry: Option<Instant> := None;
      if accessDuration != Permanent {
        expiry := Some(now + DurationDays(accessDuration) * SecondsPerDay);
      }
      state := Approved;
      approvedBy := Some(approver);
      accessStartDate := Some(now);
      accessExpiryDate := expiry;
      store.AddGrants(documentIds, folderId, partnerId, accessType, expiry);
      store.AddLogs(documentIds, userId);
      err := None;
    }
  }

  /** `_cron_revoke_expired_access`: every approved request whose expiry has come is expired. */
  method CronRevokeExpiredAccess(requests: seq<AccessRequest>, now: Instant) returns (revoked: seq<AccessRequest>)
    modifies (set r | r in requests)`state
    ensures forall r :: r in requests ==> r.state == AfterAccessCron(old(r.state), r.accessExpiryDate, now)
    ensures forall r :: r in revoked <==> (r in requests && old(r.state) == Approved &&
      r.accessExpiryDate.Some? && r.accessExpiryDate.value <= now)
  {
    revoked := [];
    var k := 0;
    while k < |requests|
      invariant 0 <= k <= |requests|
      invariant forall r :: r in requests[..k] ==> r.state == AfterAccessCron(old(r.state), r.accessExpiryDate, now)
      invariant forall r :: r in requests && r !in requests[..k] ==> r.state == old(r.state)
      invariant forall r :: r in revoked <==> (r in requests[..k] && old(r.state) == Approved &&
        r.accessExpiryDate.Some? && r.accessExpiryDate.value <= now)
    {
      var req := requests[k];
      if req.state == Approved && req.accessExpiryDate.Some? && req.accessExpiryDate.value <= now {
        req.state := RExpired;
        revoked := revoked + [req];
      }
      assert requests[..k + 1] == requests[..k] + [req];
      k := k + 1;
    }
    assert requests[..k] == requests;
  }
}
