/**
 * A digital-signature request: its signers, the choice of the next signer
 * to invite, the reconciliation of provider status reports, completion and
 * the hand-over to the contract.
 *
 * The first part is the specification on values (`Progress`: the request
 * state, its signers and the invitations sent so far); the `Request` class
 * below changes its fields step by step as the source does and is proved
 * against it.
 */
module SignatureRequest {
  import opened Common
  import opened SignatureSigner
  import opened SignatureProvider
  import CM = ContractManagement

  datatype RequestState = RequestDraft | RequestSent | PartiallySigned | Completed | Cancelled | RequestExpired

  /** An invitation e-mail, with what the template is given. */
  datatype Invitation = Invitation(signerId: nat, signerName: string, signerEmail: string, signingUrl: Option<string>)

  datatype Progress = Progress(state: RequestState, signers: seq<Signer>, invitations: seq<Invitation>)

  // ---------------------------------------------------------------------
  // Choosing the next signer (`_send_to_next_signer`)
  // ---------------------------------------------------------------------

  /**
   * The first waiting signer in record order. Sorting the waiting signers
   * by `sign_order` is stable and they already are in (sign_order, id)
   * order, so this is the signer the source takes.
   */
  function FirstWaiting(ss: seq<Signer>): (k: Option<nat>)
    ensures k.Some? ==> k.value < |ss| && ss[k.value].state == Waiting
    ensures k.Some? ==> forall i :: 0 <= i < k.value ==> ss[i].state != Waiting
    ensures k.None? ==> forall i :: 0 <= i < |ss| ==> ss[i].state != Waiting
  {
    if ss == [] then None
    else if ss[0].state == Waiting then Some(0)
    else match FirstWaiting(ss[1..])
      case None => None
      case Some(j) => Some(j + 1)
  }

  /** Every signer with a strictly smaller order has signed. */
  predicate PriorsSigned(ss: seq<Signer>, order: int) {
    forall i :: 0 <= i < |ss| && ss[i].signOrder < order ==> ss[i].state == Signed
  }

  predicate AnySigned(ss: seq<Signer>) {
    exists i :: 0 <= i < |ss| && ss[i].state == Signed
  }

  predicate AnyRefused(ss: seq<Signer>) {
    exists i :: 0 <= i < |ss| && ss[i].state == Refused
  }

  /** The signer `_send_to_next_signer` would invite, if any. */
  function NextToInvite(ss: seq<Signer>): (k: Option<nat>)
    ensures k.Some? ==> k.value < |ss|
  {
    match FirstWaiting(ss)
    case None => None
    case Some(k) => if PriorsSigned(ss, ss[k].signOrder) then Some(k) else None
  }

  /**
   * `_send_to_next_signer`: the chosen signer becomes `sent`, gets an
   * invitation when the template exists and it has an e-mail address, and a
   * `sent` request with a signed signer becomes partially signed.
   */
  function SendNext(p: Progress, hasTemplate: bool): Progress {
    match NextToInvite(p.signers)
    case None => p
    case Some(k) =>
      var ss := p.signers[k := p.signers[k].(state := Sent)];
      var s := ss[k];
      var invs := if hasTemplate && s.signerEmail != "" then
                    p.invitations + [Invitation(s.id, s.signerName, s.signerEmail, s.signingUrl)]
                  else p.invitations;
      Progress(if p.state == RequestSent && AnySigned(ss) then PartiallySigned else p.state, ss, invs)
  }

  /** In a well-formed list the first waiting signer has the least order among the waiting ones. */
  lemma FirstWaitingIsLeast(ss: seq<Signer>)
    requires WellFormed(ss) && FirstWaiting(ss).Some?
    ensures var k := FirstWaiting(ss).value;
      forall i :: 0 <= i < |ss| && i != k && ss[i].state == Waiting ==>
        Precedes(ss[k], ss[i]) && ss[k].signOrder <= ss[i].signOrder
  {
    var k := FirstWaiting(ss).value;
    forall i | 0 <= i < |ss| && i != k && ss[i].state == Waiting
      ensures Precedes(ss[k], ss[i])
    {
      assert k < i;
    }
  }

  /**
   * At most one signer changes, and only from `waiting` to `sent`; the
   * other signers and the earlier invitations stay as they were, and at most
   * one invitation is added.
   */
  lemma SendNextMovesAtMostOne(p: Progress, hasTemplate: bool)
    ensures var q := SendNext(p, hasTemplate);
      |q.signers| == |p.signers| &&
      (forall i :: 0 <= i < |p.signers| && q.signers[i] != p.signers[i] ==>
         p.signers[i].state == Waiting && q.signers[i] == p.signers[i].(state := Sent)) &&
      (forall i, j :: 0 <= i < j < |p.signers| && q.signers[i] != p.signers[i] ==> q.signers[j] == p.signers[j]) &&
      |p.invitations| <= |q.invitations| <= |p.invitations| + 1 &&
      q.invitations[..|p.invitations|] == p.invitations
  {
  }

  /**
   * A signer is invited exactly when it is the first waiting signer and
   * every signer with a smaller order has signed; that signer has the least
   * order among the waiting ones.
   */
  lemma SendNextInvitesWhenReady(p: Progress, hasTemplate: bool)
    requires WellFormed(p.signers)
    ensures var q := SendNext(p, hasTemplate);
      (q.signers != p.signers <==>
        FirstWaiting(p.signers).Some? && PriorsSigned(p.signers, p.signers[FirstWaiting(p.signers).value].signOrder))
    ensures var q := SendNext(p, hasTemplate);
      forall k :: 0 <= k < |p.signers| && q.signers[k] != p.signers[k] ==>
        PriorsSigned(p.signers, p.signers[k].signOrder) &&
        forall i :: 0 <= i < |p.signers| && p.signers[i].state == Waiting ==> p.signers[k].signOrder <= p.signers[i].signOrder
  {
    var q := SendNext(p, hasTemplate);
    match FirstWaiting(p.signers)
    case None =>
    case Some(k) =>
      FirstWaitingIsLeast(p.signers);
      if PriorsSigned(p.signers, p.signers[k].signOrder) {
        assert q.signers[k] != p.signers[k];
        forall j | 0 <= j < |p.signers| && q.signers[j] != p.signers[j] ensures j == k { }
      }
  }

  /** Two waiting signers with the same order: only the first of them is invited by one call. */
  lemma SendNextInvitesOnlyOneOfEqualOrder(p: Progress, hasTemplate: bool, i: int, j: int)
    requires 0 <= i < j < |p.signers|
    requires p.signers[i].state == Waiting && p.signers[j].state == Waiting
    ensures SendNext(p, hasTemplate).signers[j] == p.signers[j]
  {
    var k := FirstWaiting(p.signers).value;
    assert k <= i;
  }

  /**
   * The request goes from `sent` to partially signed exactly when a signer
   * is invited while some signer has already signed; no other state changes.
   */
  lemma SendNextPartialState(p: Progress, hasTemplate: bool)
    ensures var q := SendNext(p, hasTemplate);
      (q.state != p.state <==> p.state == RequestSent && NextToInvite(p.signers).Some? && AnySigned(p.signers)) &&
      (q.state != p.state ==> q.state == PartiallySigned)
  {
    var q := SendNext(p, hasTemplate);
    match NextToInvite(p.signers)
    case None =>
    case Some(k) =>
      var ss := p.signers[k := p.signers[k].(state := Sent)];
      if AnySigned(p.signers) {
        var w :| 0 <= w < |p.signers| && p.signers[w].state == Signed;
        assert ss[w].state == Signed;
      }
      if AnySigned(ss) {
        var w :| 0 <= w < |ss| && ss[w].state == Signed;
        assert p.signers[w].state == Signed;
      }
  }

  /** The signers stay well formed. */
  lemma SendNextWellFormed(p: Progress, hasTemplate: bool)
    requires WellFormed(p.signers)
    ensures WellFormed(SendNext(p, hasTemplate).signers)
  {
    match NextToInvite(p.signers)
    case None =>
    case Some(k) => WellFormedUpdate(p.signers, k, p.signers[k].(state := Sent));
  }

  // ---------------------------------------------------------------------
  // Status reports (`_process_status_update`)
  // ---------------------------------------------------------------------

  /** The first signer whose provider reference equals `ref` (both may be unset). */
  function FindRef(ss: seq<Signer>, ref: Option<string>): (k: Option<nat>)
    ensures k.Some? ==> k.value < |ss| && ss[k.value].providerRef == ref
    ensures k.Some? ==> forall i :: 0 <= i < k.value ==> ss[i].providerRef != ref
    ensures k.None? ==> forall i :: 0 <= i < |ss| ==> ss[i].providerRef != ref
  {
    if ss == [] then None
    else if ss[0].providerRef == ref then Some(0)
    else match FindRef(ss[1..], ref)
      case None => None
      case Some(j) => Some(j + 1)
  }

  /** No signer but the k-th carries the reference. */
  predicate OnlyMatch(ss: seq<Signer>, ref: Option<string>, k: nat) {
    forall i :: 0 <= i < |ss| && ss[i].providerRef == ref ==> i == k
  }

  function SetSignerState(p: Progress, k: int, s: Signer): Progress
    requires 0 <= k < |p.signers|
  {
    p.(signers := p.signers[k := s])
  }

  /**
   * One report. None stands for the exception Odoo raises when a report
   * with status signed or refused matches several signers: reading the
   * state of a multi-record set fails. A report that matches no signer is
   * skipped; any other status changes nothing.
   */
  function ApplyEntry(p: Progress, e: StatusEntry, now: Instant, hasTemplate: bool): Option<Progress> {
    match FindRef(p.signers, e.providerSignerRef)
    case None => Some(p)
    case Some(k) =>
      var s := p.signers[k];
      match e.status
      case ReportedSigned =>
        if !OnlyMatch(p.signers, e.providerSignerRef, k) then None
        else if s.state != Signed then
          var date := if e.signedDate.Some? then e.signedDate else Some(now);
          Some(SendNext(SetSignerState(p, k, s.(state := Signed, signedDate := date)), hasTemplate))
        else Some(p)
      case ReportedRefused =>
        if !OnlyMatch(p.signers, e.providerSignerRef, k) then None
        else if s.state != Refused then Some(SetSignerState(p, k, s.(state := Refused)))
        else Some(p)
      case ReportedOther(_) => Some(p)
  }

  /** The reports a status answer carries, applied in order; `failed` when one raised. */
  datatype Applied = Applied(progress: Progress, failed: bool)

  function ApplyEntries(p: Progress, es: seq<StatusEntry>, now: Instant, hasTemplate: bool): Applied
    decreases |es|
  {
    if es == [] then Applied(p, false)
    else
      var a := ApplyEntries(p, es[..|es| - 1], now, hasTemplate);
      if a.failed then a
      else match ApplyEntry(a.progress, es[|es| - 1], now, hasTemplate)
        case None => Applied(a.progress, true)
        case Some(q) => Applied(q, false)
  }

  /** Once a report raised, the later ones are not looked at. */
  lemma {:induction false} FailureIsFinal(p: Progress, es: seq<StatusEntry>, k: nat, now: Instant, hasTemplate: bool)
    requires k <= |es| && ApplyEntries(p, es[..k], now, hasTemplate).failed
    ensures ApplyEntries(p, es, now, hasTemplate) == ApplyEntries(p, es[..k], now, hasTemplate)
    decreases |es| - k
  {
    if k < |es| {
      var es' := es[..|es| - 1];
      assert es'[..k] == es[..k];
      FailureIsFinal(p, es', k, now, hasTemplate);
    } else {
      assert es[..k] == es;
    }
  }

  /** A report whose reference matches no signer is skipped. */
  lemma UnknownRefSkipped(p: Progress, e: StatusEntry, now: Instant, hasTemplate: bool)
    requires forall i :: 0 <= i < |p.signers| ==> p.signers[i].providerRef != e.providerSignerRef
    ensures ApplyEntry(p, e, now, hasTemplate) == Some(p)
  {
  }

  /**
   * `signed` for a signer that already signed, and `refused` for one that
   * already refused, write nothing and invite nobody.
   */
  lemma RepeatedReportChangesNothing(p: Progress, e: StatusEntry, now: Instant, hasTemplate: bool, k: nat)
    requires k < |p.signers| && OnlyMatch(p.signers, e.providerSignerRef, k)
    requires p.signers[k].providerRef == e.providerSignerRef
    requires (e.status == ReportedSigned && p.signers[k].state == Signed) ||
             (e.status == ReportedRefused && p.signers[k].state == Refused)
    ensures ApplyEntry(p, e, now, hasTemplate) == Some(p)
  {
    assert FindRef(p.signers, e.providerSignerRef) == Some(k);
  }

  /** A report raises exactly when it says signed or refused and matches several signers. */
  lemma ApplyEntryRaisesIff(p: Progress, e: StatusEntry, now: Instant, hasTemplate: bool)
    ensures ApplyEntry(p, e, now, hasTemplate).None? <==>
      (e.status == ReportedSigned || e.status == ReportedRefused) &&
      exists i, j :: 0 <= i < j < |p.signers| &&
        p.signers[i].providerRef == e.providerSignerRef && p.signers[j].providerRef == e.providerSignerRef
  {
    var ref := e.providerSignerRef;
    match FindRef(p.signers, ref)
    case None =>
    case Some(k) =>
      if !OnlyMatch(p.signers, ref, k) {
        var j :| 0 <= j < |p.signers| && p.signers[j].providerRef == ref && j != k;
        assert k < j;
      }
      if exists i, j :: 0 <= i < j < |p.signers| && p.signers[i].providerRef == ref && p.signers[j].providerRef == ref {
        var i, j :| 0 <= i < j < |p.signers| && p.signers[i].providerRef == ref && p.signers[j].providerRef == ref;
        assert !OnlyMatch(p.signers, ref, k) by {
          if i == k { assert j != k; } else { assert i != k; }
        }
      }
  }

  predicate SameRefs(a: seq<Signer>, b: seq<Signer>) {
    |a| == |b| && forall i :: 0 <= i < |a| ==> a[i].providerRef == b[i].providerRef
  }

  lemma SendNextKeepsRefs(p: Progress, hasTemplate: bool)
    ensures SameRefs(p.signers, SendNext(p, hasTemplate).signers)
  {
  }

  /** Reports change signer states only: provider references, ids and orders stay. */
  lemma ApplyEntryKeepsRefs(p: Progress, e: StatusEntry, now: Instant, hasTemplate: bool)
    requires ApplyEntry(p, e, now, hasTemplate).Some?
    ensures SameRefs(p.signers, ApplyEntry(p, e, now, hasTemplate).value.signers)
  {
    match FindRef(p.signers, e.providerSignerRef)
    case None =>
    case Some(k) =>
      var s := p.signers[k];
      if e.status == ReportedSigned && s.state != Signed {
        var date := if e.signedDate.Some? then e.signedDate else Some(now);
        SendNextKeepsRefs(SetSignerState(p, k, s.(state := Signed, signedDate := date)), hasTemplate);
      }
  }

  /** The signers stay well formed through a report. */
  lemma ApplyEntryWellFormed(p: Progress, e: StatusEntry, now: Instant, hasTemplate: bool)
    requires WellFormed(p.signers) && ApplyEntry(p, e, now, hasTemplate).Some?
    ensures WellFormed(ApplyEntry(p, e, now, hasTemplate).value.signers)
  {
    match FindRef(p.signers, e.providerSignerRef)
    case None =>
    case Some(k) =>
      var s := p.signers[k];
      if e.status == ReportedSigned && s.state != Signed {
        var date := if e.signedDate.Some? then e.signedDate else Some(now);
        var s' := s.(state := Signed, signedDate := date);
        WellFormedUpdate(p.signers, k, s');
        SendNextWellFormed(SetSignerState(p, k, s'), hasTemplate);
      } else if e.status == ReportedRefused && s.state != Refused {
        WellFormedUpdate(p.signers, k, s.(state := Refused));
      }
    }

  /**
   * Reports are idempotent: applying a report a second time changes
   * nothing more.
   */
  lemma ApplyEntryIdempotent(p: Progress, e: StatusEntry, now: Instant, hasTemplate: bool)
    requires ApplyEntry(p, e, now, hasTemplate).Some?
    ensures ApplyEntry(ApplyEntry(p, e, now, hasTemplate).value, e, now, hasTemplate) ==
            ApplyEntry(p, e, now, hasTemplate)
  {
    var q := ApplyEntry(p, e, now, hasTemplate).value;
    var ref := e.providerSignerRef;
    ApplyEntryKeepsRefs(p, e, now, hasTemplate);
    match FindRef(p.signers, ref)
    case None =>
    case Some(k) =>
      assert FindRef(q.signers, ref) == Some(k) by {
        assert q.signers[k].providerRef == ref;
        forall i | 0 <= i < k ensures q.signers[i].providerRef != ref {
          assert p.signers[i].providerRef != ref;
        }
        FindRefFirst(q.signers, ref, k);
      }
      assert OnlyMatch(q.signers, ref, k) <==> OnlyMatch(p.signers, ref, k);
      var s := p.signers[k];
      if e.status == ReportedSigned && s.state != Signed {
        var date := if e.signedDate.Some? then e.signedDate else Some(now);
        var mid := SetSignerState(p, k, s.(state := Signed, signedDate := date));
        SendNextMovesAtMostOne(mid, hasTemplate);
        assert mid.signers[k].state == Signed;
        assert q.signers[k].state == Signed;
      }
  }

  /** FindRef finds the first match. */
  lemma FindRefFirst(ss: seq<Signer>, ref: Option<string>, k: nat)
    requires k < |ss| && ss[k].providerRef == ref
    requires forall i :: 0 <= i < k ==> ss[i].providerRef != ref
    ensures FindRef(ss, ref) == Some(k)
  {
    match FindRef(ss, ref)
    case None =>
    case Some(j) =>
  }

  /** Provider references that tell all signers apart. */
  predicate DistinctRefs(ss: seq<Signer>) {
    forall i, j :: 0 <= i < j < |ss| ==> ss[i].providerRef != ss[j].providerRef
  }

  /** With distinct references no report raises. */
  lemma {:induction false} DistinctRefsNeverRaise(p: Progress, es: seq<StatusEntry>, now: Instant, hasTemplate: bool)
    requires DistinctRefs(p.signers)
    ensures !ApplyEntries(p, es, now, hasTemplate).failed
    ensures SameRefs(p.signers, ApplyEntries(p, es, now, hasTemplate).progress.signers)
    decreases |es|
  {
    if es != [] {
      var prefix := es[..|es| - 1];
      DistinctRefsNeverRaise(p, prefix, now, hasTemplate);
      var a := ApplyEntries(p, prefix, now, hasTemplate);
      var e := es[|es| - 1];
      assert DistinctRefs(a.progress.signers) by {
        forall i, j | 0 <= i < j < |a.progress.signers|
          ensures a.progress.signers[i].providerRef != a.progress.signers[j].providerRef
        {
          assert p.signers[i].providerRef != p.signers[j].providerRef;
        }
      }
      ApplyEntryRaisesIff(a.progress, e, now, hasTemplate);
      ApplyEntryKeepsRefs(a.progress, e, now, hasTemplate);
    }
  }

  // ---------------------------------------------------------------------
  // Completion (`_check_completion`)
  // ---------------------------------------------------------------------

  datatype Completion = NotFinished | CancelledByRefusal | AllSignedUp

  /** What `_check_completion` decides: a refusal is looked at before completion. */
  function CompletionOf(ss: seq<Signer>): Completion {
    if AnyRefused(ss) then CancelledByRefusal
    else if ss != [] && AllSigned(ss) then AllSignedUp
    else NotFinished
  }

  /**
   * A refusal cancels the request whatever the other signers did, and the
   * request completes exactly when there are signers and all have signed.
   */
  lemma CompletionOfCharacterized(ss: seq<Signer>)
    ensures CompletionOf(ss) == CancelledByRefusal <==> AnyRefused(ss)
    ensures CompletionOf(ss) == AllSignedUp <==> ss != [] && AllSigned(ss)
  {
  }

  /** The name of the signed copy: `signed_` and the document's name, `document.pdf` when it has none. */
  function SignedFilename(documentFilename: string): (n: string)
    ensures StartsWith(n, "signed_")
    ensures documentFilename != "" ==> n[7..] == documentFilename
    ensures documentFilename == "" ==> n == "signed_document.pdf"
  {
    "signed_" + (if documentFilename != "" then documentFilename else "document.pdf")
  }

  // ---------------------------------------------------------------------
  // Hand-over to the contract (`_update_contract_on_completion`)
  // ---------------------------------------------------------------------

  /** The contract fields the hand-over may fill. */
  datatype SignFields = SignFields(internalSignDate: Option<Instant>, partnerSignDate: Option<Day>,
                                   finalScanFile: Bytes, finalScanFilename: string)

  /** The first signed signer of a role, in record order. */
  function FirstSignedOfRole(ss: seq<Signer>, role: Role): (k: Option<nat>)
    ensures k.Some? ==> k.value < |ss| && ss[k.value].role == role && ss[k.value].state == Signed
    ensures k.Some? ==> forall i :: 0 <= i < k.value ==> !(ss[i].role == role && ss[i].state == Signed)
    ensures k.None? ==> forall i :: 0 <= i < |ss| ==> !(ss[i].role == role && ss[i].state == Signed)
  {
    if ss == [] then None
    else if ss[0].role == role && ss[0].state == Signed then Some(0)
    else match FirstSignedOfRole(ss[1..], role)
      case None => None
      case Some(j) => Some(j + 1)
  }

  /**
   * Fills the internal signing date from the first signed internal signer,
   * the partner signing date with today when an external signer signed, and
   * the final scan with the signed document; a field already set is kept.
   */
  function FillSignFields(f: SignFields, ss: seq<Signer>, signedDocument: Bytes, signedFilename: string,
                          contractName: string, today: Day): (g: SignFields)
    ensures f.internalSignDate.Some? ==> g.internalSignDate == f.internalSignDate
    ensures f.partnerSignDate.Some? ==> g.partnerSignDate == f.partnerSignDate
    ensures f.finalScanFile != [] ==> g.finalScanFile == f.finalScanFile && g.finalScanFilename == f.finalScanFilename
    ensures f.internalSignDate.None? ==>
      g.internalSignDate == (match FirstSignedOfRole(ss, Internal)
                             case None => None
                             case Some(k) => ss[k].signedDate)
    ensures f.partnerSignDate.None? ==>
      g.partnerSignDate == if FirstSignedOfRole(ss, External).Some? then Some(today) else None
    ensures f.finalScanFile == [] && signedDocument != [] ==> g.finalScanFile == signedDocument
    ensures f.finalScanFile == [] && signedDocument == [] ==> g == f.(internalSignDate := g.internalSignDate, partnerSignDate := g.partnerSignDate)
  {
    var internal := FirstSignedOfRole(ss, Internal);
    var external := FirstSignedOfRole(ss, External);
    var isd := if internal.Some? && f.internalSignDate.None? then ss[internal.value].signedDate else f.internalSignDate;
    var psd := if external.Some? && f.partnerSignDate.None? then Some(today) else f.partnerSignDate;
    if signedDocument != [] && f.finalScanFile == [] then
      SignFields(isd, psd, signedDocument,
                 if signedFilename != "" then signedFilename else "signed_" + contractName + ".pdf")
    else SignFields(isd, psd, f.finalScanFile, f.finalScanFilename)
  }

  /** What the contract needs before the hand-over completes its signing. */
  predicate ReadyToComplete(f: SignFields) {
    f.internalSignDate.Some? && f.partnerSignDate.Some? && f.finalScanFile != []
  }

  /**
   * When every signer signed, there is an internal and an external one with
   * a signing date, and a signed document came back, the hand-over leaves
   * the contract ready to be completed.
   */
  lemma FullySignedIsReady(f: SignFields, ss: seq<Signer>, signedDocument: Bytes, signedFilename: string,
                           contractName: string, today: Day, i: int, j: int)
    requires 0 <= i < |ss| && 0 <= j < |ss| && AllSigned(ss)
    requires ss[i].role == Internal && ss[j].role == External
    requires forall k :: 0 <= k < |ss| ==> ss[k].signedDate.Some?
    requires f.finalScanFile != [] || signedDocument != []
    ensures ReadyToComplete(FillSignFields(f, ss, signedDocument, signedFilename, contractName, today))
  {
    assert ss[i].state == Signed && ss[j].state == Signed;
    var internal := FirstSignedOfRole(ss, Internal);
    var external := FirstSignedOfRole(ss, External);
    assert internal.Some?;
    assert external.Some?;
  }

  // ---------------------------------------------------------------------
  // Recording the provider's answer to a send (`action_send`)
  // ---------------------------------------------------------------------

  /** The signer with the given record id, if the request has it. */
  function FindId(ss: seq<Signer>, id: int): (k: Option<nat>)
    ensures k.Some? ==> k.value < |ss| && ss[k.value].id == id
    ensures k.Some? ==> forall i :: 0 <= i < k.value ==> ss[i].id != id
    ensures k.None? ==> forall i :: 0 <= i < |ss| ==> ss[i].id != id
  {
    if ss == [] then None
    else if ss[0].id == id then Some(0)
    else match FindId(ss[1..], id)
      case None => None
      case Some(j) => Some(j + 1)
  }

  function WithSendEntry(s: Signer, e: SendEntry): Signer {
    s.(signingUrl := Some(e.signingUrl), providerRef := Some(e.providerSignerRef))
  }

  /** One entry of the answer: a signer that still exists gets its link and reference. */
  function RecordSendEntry(ss: seq<Signer>, e: SendEntry): (ts: seq<Signer>)
    ensures |ts| == |ss|
  {
    match FindId(ss, e.signerId)
    case None => ss
    case Some(k) => ss[k := WithSendEntry(ss[k], e)]
  }

  function RecordSendEntries(ss: seq<Signer>, es: seq<SendEntry>): (ts: seq<Signer>)
    ensures |ts| == |ss|
    decreases |es|
  {
    if es == [] then ss else RecordSendEntry(RecordSendEntries(ss, es[..|es| - 1]), es[|es| - 1])
  }

  /** Recording the answer keeps the signers well formed. */
  lemma {:induction false} RecordSendEntriesWellFormed(ss: seq<Signer>, es: seq<SendEntry>)
    requires WellFormed(ss)
    ensures WellFormed(RecordSendEntries(ss, es))
    decreases |es|
  {
    if es != [] {
      var ts := RecordSendEntries(ss, es[..|es| - 1]);
      RecordSendEntriesWellFormed(ss, es[..|es| - 1]);
      match FindId(ts, es[|es| - 1].signerId)
      case None =>
      case Some(k) => WellFormedUpdate(ts, k, WithSendEntry(ts[k], es[|es| - 1]));
    }
  }

  /** The first k signers with their entries recorded. */
  function LinkedPrefix(ss: seq<Signer>, es: seq<SendEntry>, k: nat): (ts: seq<Signer>)
    requires k <= |ss| && k <= |es|
    ensures |ts| == |ss|
  {
    seq(|ss|, i requires 0 <= i < |ss| => if i < k then WithSendEntry(ss[i], es[i]) else ss[i])
  }

  /**
   * When the answer has one entry per signer, in signer order and with the
   * signer's id, as the demo backend's does, every signer gets the link and
   * reference of its own entry.
   */
  lemma {:induction false} RecordAnswerInOrder(ss: seq<Signer>, es: seq<SendEntry>, k: nat)
    requires DistinctIds(ss) && |es| == |ss| && k <= |es|
    requires forall i :: 0 <= i < |es| ==> es[i].signerId == ss[i].id
    ensures RecordSendEntries(ss, es[..k]) == LinkedPrefix(ss, es, k)
    decreases k
  {
    if k > 0 {
      RecordAnswerInOrder(ss, es, k - 1);
      assert es[..k][..k - 1] == es[..k - 1];
      var ts := LinkedPrefix(ss, es, k - 1);
      assert FindId(ts, es[k - 1].signerId) == Some(k - 1) by {
        forall i | 0 <= i < k - 1 ensures ts[i].id != es[k - 1].signerId {
          assert ss[i].id != ss[k - 1].id;
        }
        FindIdFirst(ts, es[k - 1].signerId, k - 1);
      }
      assert RecordSendEntries(ss, es[..k]) == RecordSendEntry(ts, es[k - 1]);
    } else {
      assert es[..k] == [];
    }
  }

  lemma FindIdFirst(ss: seq<Signer>, id: int, k: nat)
    requires k < |ss| && ss[k].id == id
    requires forall i :: 0 <= i < k ==> ss[i].id != id
    ensures FindId(ss, id) == Some(k)
  {
    match FindId(ss, id)
    case None =>
    case Some(j) =>
  }

  /** An entry whose signer no longer exists changes nothing. */
  lemma RecordSendEntryMissingSigner(ss: seq<Signer>, e: SendEntry)
    requires forall i :: 0 <= i < |ss| ==> ss[i].id != e.signerId
    ensures RecordSendEntry(ss, e) == ss
  {
  }

  lemma PrefixedInjective(prefix: string, a: string, b: string)
    requires prefix + a == prefix + b
    ensures a == b
  {
    assert (prefix + a)[|prefix|..] == a;
    assert (prefix + b)[|prefix|..] == b;
  }

  /**
   * After a demo send with distinct random parts, the signers' references
   * are distinct, so no status report can match two signers.
   */
  lemma DemoLinksDistinctRefs(ss: seq<Signer>, es: seq<SendEntry>, signerHex: seq<string>)
    requires |es| == |ss| == |signerHex|
    requires forall i :: 0 <= i < |es| ==> es[i].providerSignerRef == "DEMO-SIGNER-" + signerHex[i]
    requires forall i, j :: 0 <= i < j < |signerHex| ==> signerHex[i] != signerHex[j]
    ensures DistinctRefs(LinkedPrefix(ss, es, |es|))
  {
    var ts := LinkedPrefix(ss, es, |es|);
    forall i, j | 0 <= i < j < |ts| ensures ts[i].providerRef != ts[j].providerRef {
      if ts[i].providerRef == ts[j].providerRef {
        PrefixedInjective("DEMO-SIGNER-", signerHex[i], signerHex[j]);
      }
    }
  }

  // ---------------------------------------------------------------------
  // Cancelling and the demo signing link
  // ---------------------------------------------------------------------

  /** `action_cancel` on the signers: the ones still waiting or invited wait again. */
  function ResetUnsigned(ss: seq<Signer>): (ts: seq<Signer>)
    ensures |ts| == |ss|
    ensures forall i :: 0 <= i < |ss| ==> ts[i].state != Sent
    ensures forall i :: 0 <= i < |ss| ==>
      ts[i] == (if ss[i].state == Sent then ss[i].(state := Waiting) else ss[i])
  {
    seq(|ss|, i requires 0 <= i < |ss| => if ss[i].state in {Waiting, Sent} then ss[i].(state := Waiting) else ss[i])
  }

  lemma ResetUnsignedWellFormed(ss: seq<Signer>)
    requires WellFormed(ss)
    ensures WellFormed(ResetUnsigned(ss))
  {
    var ts := ResetUnsigned(ss);
    forall i, j | 0 <= i < j < |ts| ensures Precedes(ts[i], ts[j]) {
      assert Precedes(ss[i], ss[j]);
    }
    forall i, j | 0 <= i < |ts| && 0 <= j < |ts| && i != j ensures ts[i].id != ts[j].id {
      assert ss[i].id != ss[j].id;
    }
  }

  /** The demo link: the signer signs now and the next signer is invited. */
  function DemoSign(p: Progress, k: int, now: Instant, hasTemplate: bool): Progress
    requires 0 <= k < |p.signers|
  {
    SendNext(SetSignerState(p, k, p.signers[k].(state := Signed, signedDate := Some(now))), hasTemplate)
  }

  /** What the completion check decides about the request state. */
  function AfterCompletion(st: RequestState, ss: seq<Signer>): RequestState {
    match CompletionOf(ss)
    case CancelledByRefusal => Cancelled
    case AllSignedUp => Completed
    case NotFinished => st
  }

  /**
   * A cancelled request whose last unsigned signer follows the demo link
   * ends up completed: neither the link nor `_process_callback` looks at
   * the request state.
   */
  lemma DemoSignCompletesCancelledRequest(p: Progress, k: int, now: Instant, hasTemplate: bool)
    requires p.state == Cancelled && 0 <= k < |p.signers|
    requires forall i :: 0 <= i < |p.signers| && i != k ==> p.signers[i].state == Signed
    ensures AfterCompletion(DemoSign(p, k, now, hasTemplate).state, DemoSign(p, k, now, hasTemplate).signers) == Completed
  {
    var mid := SetSignerState(p, k, p.signers[k].(state := Signed, signedDate := Some(now)));
    assert FirstWaiting(mid.signers).None?;
    var q := DemoSign(p, k, now, hasTemplate);
    assert q == mid;
    assert AllSigned(q.signers);
    CompletionOfCharacterized(q.signers);
  }

  /**
   * Signing through the demo link is idempotent in the same way as a
   * `signed` report: a signer that has signed is left alone by the caller,
   * and one that has not signed becomes signed.
   */
  lemma DemoSignSigns(p: Progress, k: int, now: Instant, hasTemplate: bool)
    requires 0 <= k < |p.signers|
    ensures DemoSign(p, k, now, hasTemplate).signers[k].state == Signed
    ensures DemoSign(p, k, now, hasTemplate).signers[k].signedDate == Some(now)
  {
    var mid := SetSignerState(p, k, p.signers[k].(state := Signed, signedDate := Some(now)));
    SendNextMovesAtMostOne(mid, hasTemplate);
  }

  // ---------------------------------------------------------------------
  // The request record
  // ---------------------------------------------------------------------

  datatype RequestError = NotDraft | NoDocument | NoSigners | NoBackend(op: Operation)
                        | AlreadyFinal | ExpectedSingleton | InvalidSignerId

  datatype Outcome = Done | Failed(error: RequestError)

  /** The clock, the contract managers `_complete_signing` notifies and `web.base.url`. */
  datatype Env = Env(now: Instant, today: Day, managers: seq<int>, baseUrl: string)

  /** `create`: a name left at "New" takes the next sequence value, or stays "New" when there is none. */
  function InitialName(given: Option<string>, sequenceNext: Option<string>): (n: string)
    ensures given.Some? && given.value != "New" ==> n == given.value
    ensures (given.None? || given.value == "New") && sequenceNext.Some? && sequenceNext.value != "" ==> n == sequenceNext.value
    ensures (given.None? || given.value == "New") && (sequenceNext.None? || sequenceNext.value == "") ==> n == "New"
  {
    if given.Some? && given.value != "New" then given.value
    else if sequenceNext.Some? && sequenceNext.value != "" then sequenceNext.value
    else "New"
  }

  /** `create` and `action_send`: a blank callback token is replaced by a fresh one, a set one is kept. */
  function FilledToken(given: string, generated: string): (t: string)
    requires generated != ""
    ensures t != ""
    ensures given != "" ==> t == given
  {
    if given == "" then generated else given
  }

  /** The request states a status poll and the crons look at. */
  predicate InProgress(st: RequestState) {
    st == RequestSent || st == PartiallySigned
  }

  /** `_cron_check_signature_expiry`: an active request whose deadline is before today expires. */
  predicate ExpiresBy(st: RequestState, deadline: Option<Day>, today: Day) {
    InProgress(st) && deadline.Some? && deadline.value < today
  }

  /** The contract fields the hand-over reads and writes. */
  function SignFieldsOf(c: CM.Contract): SignFields
    reads c
  {
    SignFields(c.internalSignDate, c.partnerSignDate, c.finalScanFile, c.finalScanFilename)
  }

  /** The demo signing data written into the signers by a send. */
  function DemoAnswer(ss: seq<Signer>, token: string, baseUrl: string, signerHex: seq<string>): (es: seq<SendEntry>)
    requires |signerHex| == |ss|
    ensures |es| == |ss|
  {
    seq(|ss|, i requires 0 <= i < |ss| =>
      SendEntry(ss[i].id, DemoSigningUrl(baseUrl, token, ss[i].id), "DEMO-SIGNER-" + signerHex[i]))
  }

  /**
   * The request after a successful demo send: `sent`, every signer with the
   * link and reference of its own entry, then the first signer invited.
   */
  function AfterDemoSend(p: Progress, token: string, baseUrl: string, signerHex: seq<string>, hasTemplate: bool): Progress
    requires |signerHex| == |p.signers|
  {
    var linked := LinkedPrefix(p.signers, DemoAnswer(p.signers, token, baseUrl, signerHex), |p.signers|);
    SendNext(Progress(RequestSent, linked, p.invitations), hasTemplate)
  }

  /**
   * After a demo send whose random signer parts are distinct, no status
   * report of any later poll raises.
   */
  lemma DemoSendThenReportsNeverRaise(p: Progress, token: string, baseUrl: string, signerHex: seq<string>,
                                      hasTemplate: bool, es: seq<StatusEntry>, now: Instant)
    requires |signerHex| == |p.signers|
    requires forall i, j :: 0 <= i < j < |signerHex| ==> signerHex[i] != signerHex[j]
    ensures !ApplyEntries(AfterDemoSend(p, token, baseUrl, signerHex, hasTemplate), es, now, hasTemplate).failed
  {
    var answer := DemoAnswer(p.signers, token, baseUrl, signerHex);
    var linked := LinkedPrefix(p.signers, answer, |p.signers|);
    DemoLinksDistinctRefs(p.signers, answer, signerHex);
    var sentP := Progress(RequestSent, linked, p.invitations);
    SendNextKeepsRefs(sentP, hasTemplate);
    var q := AfterDemoSend(p, token, baseUrl, signerHex, hasTemplate);
    assert DistinctRefs(q.signers) by {
      forall i, j | 0 <= i < j < |q.signers| ensures q.signers[i].providerRef != q.signers[j].providerRef {
        assert linked[i].providerRef != linked[j].providerRef;
      }
    }
    DistinctRefsNeverRaise(q, es, now, hasTemplate);
  }

  /** A payload's `signer_id`: absent or falsy, an integer, or a value `int()` rejects. */
  datatype SignerIdField = NoSignerId | SignerIdValue(value: int) | NotAnInteger

  class Request {
    const id: nat
    var name: string
    var state: RequestState
    var signers: seq<Signer>
    const providerType: string
    var documentFile: Bytes
    var documentFilename: string
    var callbackToken: string
    var providerDocumentRef: Option<string>
    var signedDocument: Bytes
    var signedDocumentFilename: string
    var sentDate: Option<Instant>
    var completedDate: Option<Instant>
    var deadline: Option<Day>
    var invitations: seq<Invitation>
    /** Whether the invitation e-mail template is installed. */
    const hasInviteTemplate: bool
    const contract: CM.Contract

    ghost predicate Valid()
      reads this, contract
    {
      WellFormed(signers) && contract.Valid()
    }

    function Snapshot(): Progress
      reads this
    {
      Progress(state, signers, invitations)
    }

    /** The hand-over to the contract, relative to the state before the call. */
    twostate predicate HandedOver(today: Day, managers: seq<int>)
      reads this, contract
    {
      var f := FillSignFields(old(SignFieldsOf(contract)), signers, signedDocument, signedDocumentFilename,
                              old(contract.name), today);
      var completes := ReadyToComplete(f) && old(contract.state) == CM.Signing;
      SignFieldsOf(contract) == f &&
      contract.state == (if completes then CM.Signed else old(contract.state)) &&
      contract.signedDate == (if completes then Some(today) else old(contract.signedDate)) &&
      contract.activities == (if completes then
                                old(contract.activities) + CM.ScheduleFirst(managers, today + 1, CM.SealAndStore)
                              else old(contract.activities))
    }

    /** What `_check_completion` writes, given the request state it started from. */
    twostate predicate CompletionDone(before: RequestState, env: Env)
      reads this, contract
    {
      state == AfterCompletion(before, signers) &&
      (CompletionOf(signers) == AllSignedUp ==>
         completedDate == Some(env.now) &&
         (match ProviderDownloadSigned(providerType, documentFile)
          case Some(doc) =>
            signedDocument == doc && signedDocumentFilename == SignedFilename(documentFilename)
          case None =>
            signedDocument == old(signedDocument) && signedDocumentFilename == old(signedDocumentFilename)) &&
         HandedOver(env.today, env.managers)) &&
      (CompletionOf(signers) != AllSignedUp ==>
         completedDate == old(completedDate) && signedDocument == old(signedDocument) &&
         signedDocumentFilename == old(signedDocumentFilename) && unchanged(contract))
    }

    /**
     * What `_process_callback` leaves behind: a demo request whose payload
     * names an unsigned signer has that signer signed, the next one invited
     * and completion checked; every other callback changes nothing.
     */
    twostate predicate CallbackApplied(signerId: SignerIdField, env: Env)
      reads this, contract
    {
      if providerType == "demo" && signerId.SignerIdValue? then
        match FindId(old(signers), signerId.value)
        case Some(k) =>
          if old(signers[k].state) != Signed then
            var q := DemoSign(old(Snapshot()), k, env.now, hasInviteTemplate);
            signers == q.signers && invitations == q.invitations && CompletionDone(q.state, env)
          else unchanged(this) && unchanged(contract)
        case None => unchanged(this) && unchanged(contract)
      else unchanged(this) && unchanged(contract)
    }

    /** `create`. */
    constructor (id: nat, givenName: Option<string>, sequenceNext: Option<string>, contract: CM.Contract,
                 providerType: string, documentFile: Bytes, documentFilename: string,
                 signers: seq<Signer>, givenToken: string, freshToken: string,
                 deadline: Option<Day>, hasInviteTemplate: bool)
      requires WellFormed(signers) && contract.Valid() && freshToken != ""
      ensures Valid()
      ensures this.id == id && name == InitialName(givenName, sequenceNext) && state == RequestDraft
      ensures this.contract == contract && this.providerType == providerType
      ensures this.documentFile == documentFile && this.documentFilename == documentFilename
      ensures this.signers == signers && callbackToken == FilledToken(givenToken, freshToken)
      ensures providerDocumentRef.None? && signedDocument == [] && signedDocumentFilename == ""
      ensures sentDate.None? && completedDate.None? && this.deadline == deadline && invitations == []
      ensures this.hasInviteTemplate == hasInviteTemplate
    {
      this.id := id;
      name := InitialName(givenName, sequenceNext);
      state := RequestDraft;
      this.signers := signers;
      this.providerType := providerType;
      this.documentFile := documentFile;
      this.documentFilename := documentFilename;
      callbackToken := FilledToken(givenToken, freshToken);
      providerDocumentRef := None;
      signedDocument := [];
      signedDocumentFilename := "";
      sentDate := None;
      completedDate := None;
      this.deadline := deadline;
      invitations := [];
      this.hasInviteTemplate := hasInviteTemplate;
      this.contract := contract;
    }

    /** `_send_signing_invitation`: mail the signer when the template exists and it has an address. */
    method SendSigningInvitation(s: Signer)
      modifies this`invitations
      ensures invitations == old(invitations) +
        (if hasInviteTemplate && s.signerEmail != "" then
           [Invitation(s.id, s.signerName, s.signerEmail, s.signingUrl)]
         else [])
    {
      if hasInviteTemplate && s.signerEmail != "" {
        invitations := invitations + [Invitation(s.id, s.signerName, s.signerEmail, s.signingUrl)];
      }
    }

    /** `_send_to_next_signer`. */
    method SendToNextSigner()
      requires Valid()
      modifies this`state, this`signers, this`invitations
      ensures Valid()
      ensures Snapshot() == SendNext(old(Snapshot()), hasInviteTemplate)
    {
      SendNextWellFormed(Snapshot(), hasInviteTemplate);
      var waiting := FirstWaiting(signers);
      if waiting.None? {
        return;
      }
      var next := waiting.value;
      if !PriorsSigned(signers, signers[next].signOrder) {
        return;
      }
      signers := signers[next := signers[next].(state := Sent)];
      SendSigningInvitation(signers[next]);
      if state == RequestSent && AnySigned(signers) {
        state := PartiallySigned;
      }
    }

    /** `_update_contract_on_completion`. */
    method UpdateContractOnCompletion(env: Env)
      requires Valid()
      modifies contract`state, contract`signedDate, contract`activities, contract`internalSignDate,
               contract`partnerSignDate, contract`finalScanFile, contract`finalScanFilename
      ensures Valid()
      ensures HandedOver(env.today, env.managers)
    {
      var f := FillSignFields(SignFieldsOf(contract), signers, signedDocument, signedDocumentFilename,
                              contract.name, env.today);
      contract.internalSignDate := f.internalSignDate;
      contract.partnerSignDate := f.partnerSignDate;
      contract.finalScanFile := f.finalScanFile;
      contract.finalScanFilename := f.finalScanFilename;
      if contract.internalSignDate.Some? && contract.partnerSignDate.Some? && contract.finalScanFile != []
         && contract.state == CM.Signing {
        var r := contract.CompleteSigning(env.managers, env.today);
      }
    }

    /** `_check_completion`: a refusal cancels, otherwise a fully signed request completes. */
    method CheckCompletion(env: Env)
      requires Valid()
      modifies this`state, this`completedDate, this`signedDocument, this`signedDocumentFilename,
               contract`state, contract`signedDate, contract`activities, contract`internalSignDate,
               contract`partnerSignDate, contract`finalScanFile, contract`finalScanFilename
      ensures Valid()
      ensures CompletionDone(old(state), env)
    {
      if AnyRefused(signers) {
        state := Cancelled;
        return;
      }
      if signers != [] && AllSigned(signers) {
        var signed := ProviderDownloadSigned(providerType, documentFile);
        state := Completed;
        completedDate := Some(env.now);
        if signed.Some? {
          signedDocument := signed.value;
          signedDocumentFilename := SignedFilename(documentFilename);
        }
        UpdateContractOnCompletion(env);
      }
    }

    /**
     * One provider report: the matching signer signs or refuses. A sign or
     * refuse report whose reference matches several signers fails.
     */
    method ApplyStatusEntry(e: StatusEntry, now: Instant) returns (failed: bool)
      requires Valid()
      modifies this`state, this`signers, this`invitations
      ensures Valid()
      ensures ApplyEntry(old(Snapshot()), e, now, hasInviteTemplate) == if failed then None else Some(Snapshot())
      ensures failed ==> Snapshot() == old(Snapshot())
    {
      ghost var before := Snapshot();
      var found := FindRef(signers, e.providerSignerRef);
      if found.Some? {
        var m := found.value;
        if (e.status == ReportedSigned || e.status == ReportedRefused)
           && !OnlyMatch(signers, e.providerSignerRef, m) {
          // `signer.state` on several records raises.
          return true;
        }
        if e.status == ReportedSigned && signers[m].state != Signed {
          var date := if e.signedDate.Some? then e.signedDate else Some(now);
          WellFormedUpdate(signers, m, signers[m].(state := Signed, signedDate := date));
          signers := signers[m := signers[m].(state := Signed, signedDate := date)];
          SendToNextSigner();
        } else if e.status == ReportedRefused && signers[m].state != Refused {
          WellFormedUpdate(signers, m, signers[m].(state := Refused));
          signers := signers[m := signers[m].(state := Refused)];
        }
      }
      assert ApplyEntry(before, e, now, hasInviteTemplate) == Some(Snapshot());
      failed := false;
    }

    /** `_process_status_update`: the reports in order, then the completion check. */
    method ProcessStatusUpdate(entries: seq<StatusEntry>, env: Env) returns (r: Outcome)
      requires Valid()
      modifies this`state, this`signers, this`invitations, this`completedDate, this`signedDocument,
               this`signedDocumentFilename,
               contract`state, contract`signedDate, contract`activities, contract`internalSignDate,
               contract`partnerSignDate, contract`finalScanFile, contract`finalScanFilename
      ensures Valid()
      ensures var a := ApplyEntries(old(Snapshot()), entries, env.now, hasInviteTemplate);
        r == (if a.failed then Failed(ExpectedSingleton) else Done) &&
        signers == a.progress.signers && invitations == a.progress.invitations
      ensures var a := ApplyEntries(old(Snapshot()), entries, env.now, hasInviteTemplate);
        a.failed ==> (state == a.progress.state && completedDate == old(completedDate) &&
                      signedDocument == old(signedDocument) && unchanged(contract))
      ensures var a := ApplyEntries(old(Snapshot()), entries, env.now, hasInviteTemplate);
        !a.failed ==> CompletionDone(a.progress.state, env)
    {
      var failed := ApplyStatusEntries(entries, env.now);
      if failed {
        return Failed(ExpectedSingleton);
      }
      CheckCompletion(env);
      r := Done;
    }

    /** The reports in order, up to the first that raises. */
    method ApplyStatusEntries(entries: seq<StatusEntry>, now: Instant) returns (failed: bool)
      requires Valid()
      modifies this`state, this`signers, this`invitations
      ensures Valid()
      ensures ApplyEntries(old(Snapshot()), entries, now, hasInviteTemplate) == Applied(Snapshot(), failed)
    {
      var k := 0;
      while k < |entries|
        invariant 0 <= k <= |entries|
        invariant Valid()
        invariant ApplyEntries(old(Snapshot()), entries[..k], now, hasInviteTemplate) == Applied(Snapshot(), false)
      {
        assert entries[..k + 1][..k] == entries[..k];
        ghost var before := Snapshot();
        failed := ApplyStatusEntry(entries[k], now);
        if failed {
          assert ApplyEntries(old(Snapshot()), entries[..k + 1], now, hasInviteTemplate) == Applied(before, true);
          FailureIsFinal(old(Snapshot()), entries, k + 1, now, hasInviteTemplate);
          return;
        }
        assert ApplyEntries(old(Snapshot()), entries[..k + 1], now, hasInviteTemplate) == Applied(Snapshot(), false);
        k := k + 1;
      }
      assert entries[..k] == entries;
      failed := false;
    }

    /** `action_check_status`: ask the provider and reconcile, for a sent or partially signed request. */
    method ActionCheckStatus(env: Env) returns (r: Outcome)
      requires Valid()
      modifies this`state, this`signers, this`invitations, this`completedDate, this`signedDocument,
               this`signedDocumentFilename,
               contract`state, contract`signedDate, contract`activities, contract`internalSignDate,
               contract`partnerSignDate, contract`finalScanFile, contract`finalScanFilename
      ensures Valid()
      ensures !InProgress(old(state)) ==> r == Done && unchanged(this) && unchanged(contract)
      ensures InProgress(old(state)) && providerType != "demo" ==>
        r == Failed(NoBackend(GetStatus)) && unchanged(this) && unchanged(contract)
      ensures InProgress(old(state)) && providerType == "demo" ==>
        var a := ApplyEntries(old(Snapshot()), DemoEntries(old(signers)), env.now, hasInviteTemplate);
        r == (if a.failed then Failed(ExpectedSingleton) else Done) &&
        signers == a.progress.signers && invitations == a.progress.invitations &&
        (!a.failed ==> CompletionDone(a.progress.state, env))
    {
      if !InProgress(state) {
        return Done;
      }
      HasBackendIffDemo(providerType, GetStatus);
      if !HasBackend(providerType, GetStatus) {
        return Failed(NoBackend(GetStatus));
      }
      var answer := DemoGetStatus(signers);
      r := ProcessStatusUpdate(answer.signers, env);
    }

    /**
     * `_process_callback`: the demo provider's payload names the signer who
     * signed; any other provider is polled instead.
     */
    method ProcessCallback(signerId: SignerIdField, env: Env) returns (r: Outcome)
      requires Valid()
      modifies this`state, this`signers, this`invitations, this`completedDate, this`signedDocument,
               this`signedDocumentFilename,
               contract`state, contract`signedDate, contract`activities, contract`internalSignDate,
               contract`partnerSignDate, contract`finalScanFile, contract`finalScanFilename
      ensures Valid()
      ensures providerType == "demo" && signerId.NotAnInteger? ==>
        r == Failed(InvalidSignerId) && unchanged(this) && unchanged(contract)
      ensures providerType == "demo" && signerId.SignerIdValue? ==>
        r == Done &&
        match FindId(old(signers), signerId.value)
        case Some(k) =>
          if old(signers[k].state) != Signed then
            var q := DemoSign(old(Snapshot()), k, env.now, hasInviteTemplate);
            signers == q.signers && invitations == q.invitations && CompletionDone(q.state, env)
          else unchanged(this) && unchanged(contract)
        case None => unchanged(this) && unchanged(contract)
      ensures providerType == "demo" && signerId.NoSignerId? ==> r == Done && unchanged(this) && unchanged(contract)
      ensures providerType != "demo" ==>
        r == (if InProgress(old(state)) then Failed(NoBackend(GetStatus)) else Done) &&
        unchanged(this) && unchanged(contract)
      ensures CallbackApplied(signerId, env)
    {
      if providerType == "demo" {
        match signerId
        case NoSignerId =>
          return Done;
        case NotAnInteger =>
          return Failed(InvalidSignerId);
        case SignerIdValue(sid) =>
          var found := FindId(signers, sid);
          if found.Some? && signers[found.value].state != Signed {
            DemoSignAt(found.value, env);
          }
          return Done;
      } else {
        r := ActionCheckStatus(env);
      }
    }

    /** The demo signer `k` signs now; the next signer is invited and completion is checked. */
    method DemoSignAt(k: nat, env: Env)
      requires Valid() && k < |signers|
      modifies this`state, this`signers, this`invitations, this`completedDate, this`signedDocument,
               this`signedDocumentFilename,
               contract`state, contract`signedDate, contract`activities, contract`internalSignDate,
               contract`partnerSignDate, contract`finalScanFile, contract`finalScanFilename
      ensures Valid()
      ensures var q := DemoSign(old(Snapshot()), k, env.now, hasInviteTemplate);
        signers == q.signers && invitations == q.invitations && CompletionDone(q.state, env)
    {
      WellFormedUpdate(signers, k, signers[k].(state := Signed, signedDate := Some(env.now)));
      signers := signers[k := signers[k].(state := Signed, signedDate := Some(env.now))];
      SendToNextSigner();
      CheckCompletion(env);
    }

    /** The loop of `action_send` that writes the provider's answer into the signers. */
    method RecordSendAnswer(entries: seq<SendEntry>)
      requires Valid()
      requires |entries| == |signers| && forall i :: 0 <= i < |entries| ==> entries[i].signerId == signers[i].id
      modifies this`signers
      ensures Valid()
      ensures signers == LinkedPrefix(old(signers), entries, |entries|)
    {
      ghost var sent := signers;
      var k := 0;
      while k < |entries|
        invariant 0 <= k <= |entries|
        invariant signers == RecordSendEntries(sent, entries[..k])
        invariant Valid()
      {
        assert entries[..k + 1][..k] == entries[..k];
        RecordSendEntriesWellFormed(sent, entries[..k + 1]);
        signers := RecordSendEntry(signers, entries[k]);
        k := k + 1;
      }
      RecordAnswerInOrder(sent, entries, k);
      assert entries[..k] == entries;
    }

    /**
     * `action_send`: a draft request with a document and signers is sent
     * to the provider, the signers get their links and references, the
     * first signer is invited and an approved contract starts signing.
     * `newToken`, `docHex` and `signerHex` are the random parts.
     */
    method ActionSend(env: Env, newToken: string, docHex: string, signerHex: seq<string>) returns (r: Outcome)
      requires Valid()
      requires newToken != "" && IsUpperHex(docHex, 8)
      requires |signerHex| == |signers| && forall i :: 0 <= i < |signerHex| ==> IsUpperHex(signerHex[i], 6)
      modifies this`callbackToken, this`providerDocumentRef, this`state, this`sentDate, this`signers,
               this`invitations, contract`state
      ensures Valid()
      ensures r == (if old(state) != RequestDraft then Failed(NotDraft)
                    else if old(documentFile) == [] then Failed(NoDocument)
                    else if old(signers) == [] then Failed(NoSigners)
                    else if providerType != "demo" then Failed(NoBackend(SendDocument))
                    else Done)
      ensures r == Failed(NotDraft) || r == Failed(NoDocument) || r == Failed(NoSigners) ==>
        unchanged(this) && unchanged(contract)
      ensures r == Failed(NoBackend(SendDocument)) ==>
        callbackToken == FilledToken(old(callbackToken), newToken) && state == old(state) &&
        signers == old(signers) && unchanged(contract)
      ensures r == Done ==>
        var token := FilledToken(old(callbackToken), newToken);
        callbackToken == token && providerDocumentRef == Some("DEMO-" + docHex) && sentDate == Some(env.now) &&
        Snapshot() == AfterDemoSend(old(Snapshot()), token, env.baseUrl, signerHex, hasInviteTemplate) &&
        contract.state == (if old(contract.state) == CM.Approved then CM.Signing else old(contract.state))
    {
      if state != RequestDraft {
        return Failed(NotDraft);
      }
      if documentFile == [] {
        return Failed(NoDocument);
      }
      if signers == [] {
        return Failed(NoSigners);
      }
      if callbackToken == "" {
        callbackToken := newToken;
      }
      HasBackendIffDemo(providerType, SendDocument);
      if !HasBackend(providerType, SendDocument) {
        return Failed(NoBackend(SendDocument));
      }
      SendDemo(env, docHex, signerHex);
      r := Done;
    }

    /** The demo provider's send and what `action_send` writes from its answer. */
    method SendDemo(env: Env, docHex: string, signerHex: seq<string>)
      requires Valid() && state == RequestDraft && signers != []
      requires IsUpperHex(docHex, 8)
      requires |signerHex| == |signers| && forall i :: 0 <= i < |signerHex| ==> IsUpperHex(signerHex[i], 6)
      modifies this`providerDocumentRef, this`state, this`sentDate, this`signers, this`invitations, contract`state
      ensures Valid()
      ensures providerDocumentRef == Some("DEMO-" + docHex) && sentDate == Some(env.now)
      ensures Snapshot() == AfterDemoSend(old(Snapshot()), callbackToken, env.baseUrl, signerHex, hasInviteTemplate)
      ensures contract.state == (if old(contract.state) == CM.Approved then CM.Signing else old(contract.state))
    {
      var answer := DemoSendDocument(signers, callbackToken, env.baseUrl, docHex, signerHex);
      providerDocumentRef := Some(answer.providerDocumentRef);
      state := RequestSent;
      sentDate := Some(env.now);
      ghost var expected := DemoAnswer(signers, callbackToken, env.baseUrl, signerHex);
      assert answer.signers == expected;
      RecordSendAnswer(answer.signers);
      assert Snapshot() == Progress(RequestSent, LinkedPrefix(old(signers), expected, |old(signers)|), old(invitations));
      SendToNextSigner();
      if contract.state == CM.Approved {
        contract.state := CM.Signing;
      }
    }

    /**
     * `action_cancel`: refused for a completed or cancelled request, allowed
     * in every other state including expired. The provider's cancel never
     * raises.
     */
    method ActionCancel() returns (r: Outcome)
      requires Valid()
      modifies this`state, this`signers
      ensures Valid()
      ensures r == if old(state) == Completed || old(state) == Cancelled then Failed(AlreadyFinal) else Done
      ensures r.Done? ==> state == Cancelled && signers == ResetUnsigned(old(signers))
      ensures r.Failed? ==> state == old(state) && signers == old(signers)
    {
      if state == Completed || state == Cancelled {
        return Failed(AlreadyFinal);
      }
      var cancelled := ProviderCancel(providerType);
      state := Cancelled;
      ResetUnsignedWellFormed(signers);
      signers := ResetUnsigned(signers);
      r := Done;
    }
  }

  /** `_cron_check_signature_expiry`. */
  method CronCheckSignatureExpiry(requests: seq<Request>, today: Day)
    requires forall i, j :: 0 <= i < j < |requests| ==> requests[i] != requests[j]
    modifies (set r | r in requests)`state
    ensures forall r :: r in requests ==>
      r.state == if ExpiresBy(old(r.state), r.deadline, today) then RequestExpired else old(r.state)
  {
    var k := 0;
    while k < |requests|
      invariant 0 <= k <= |requests|
      invariant forall i :: 0 <= i < k ==>
        requests[i].state == if ExpiresBy(old(requests[i].state), requests[i].deadline, today) then RequestExpired
                             else old(requests[i].state)
      invariant forall i :: k <= i < |requests| ==> requests[i].state == old(requests[i].state)
    {
      var req := requests[k];
      if ExpiresBy(req.state, req.deadline, today) {
        req.state := RequestExpired;
      }
      k := k + 1;
    }
  }

  /**
   * What one poll of the status cron leaves in a request's own fields: a
   * request that is not in progress, or whose provider has no status
   * backend, keeps them; a demo request takes the signers and invitations
   * the provider's answer gives and, when that answer is well-formed, the
   * state its completion check gives.
   */
  ghost predicate PolledTo(before: Progress, providerType: string, hasInviteTemplate: bool, env: Env, after: Progress) {
    if !InProgress(before.state) || providerType != "demo" then after == before
    else
      var a := ApplyEntries(before, DemoEntries(before.signers), env.now, hasInviteTemplate);
      after.signers == a.progress.signers && after.invitations == a.progress.invitations &&
      (!a.failed ==> after.state == AfterCompletion(a.progress.state, after.signers))
  }

  /**
   * `_cron_check_signature_status`: every sent or partially signed request
   * is polled; a failing poll is logged and the sweep goes on.
   */
  method CronCheckSignatureStatus(requests: seq<Request>, env: Env)
    requires forall i, j :: 0 <= i < j < |requests| ==> requests[i] != requests[j]
    requires forall r :: r in requests ==> r.Valid()
    modifies set r | r in requests, set r | r in requests :: r.contract
    ensures forall r :: r in requests ==> r.Valid()
    ensures forall r :: r in requests && !InProgress(old(r.state)) ==>
      r.state == old(r.state) && r.signers == old(r.signers)
    ensures forall i :: 0 <= i < |requests| ==>
      PolledTo(old(requests[i].Snapshot()), requests[i].providerType, requests[i].hasInviteTemplate, env,
               requests[i].Snapshot())
  {
    var k := 0;
    while k < |requests|
      invariant 0 <= k <= |requests|
      invariant forall r :: r in requests ==> r.Valid()
      invariant forall i :: k <= i < |requests| ==> requests[i].Snapshot() == old(requests[i].Snapshot())
      invariant forall i :: 0 <= i < k ==>
        PolledTo(old(requests[i].Snapshot()), requests[i].providerType, requests[i].hasInviteTemplate, env,
                 requests[i].Snapshot())
    {
      var req := requests[k];
      if InProgress(req.state) {
        var outcome := req.ActionCheckStatus(env);
      }
      k := k + 1;
    }
  }
}
