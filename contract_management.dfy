/**
 * The contract record of the contract-management module: its approval and
 * signing workflow, the date computations and onchanges, the numbering of
 * new contracts and the two daily crons.
 *
 * Each workflow action acts on one record (the form button). An action that
 * raises returns Err and, since every check comes before the first write,
 * leaves the record as it was. The to-do activities the actions close and
 * schedule are kept as a sequence on the record.
 */
module ContractManagement {
  import opened Common

  datatype ContractState = Draft | InReview | Waiting | Approved | Signing | Signed | Expired | Cancel

  datatype SigningFlow = TrasasFirst | PartnerFirst

  /** The step a scheduled to-do activity asks its user to carry out. */
  datatype Step =
    | ApprovalRequest   // approve the contract (sent on submit and after review)
    | ReviewRequest     // review the contract
    | BeginSigning      // start the signing procedure, for the creator
    | FixRejected       // rework a rejected contract, for the creator
    | SignInternalFirst // the director signs first (flow A)
    | AwaitPartner      // wait for the partner's signature (flow B)
    | SendToPartner     // confirm the contract was sent to the partner (flow A)
    | CheckAndComplete  // check and complete (flow B)
    | FollowUpPartner   // follow up and receive the partner's copy (flow A)
    | SignAfterPartner  // the director signs after the partner (flow B)
    | SealAndStore      // stamp and archive the signed contract
    | ExpiryWarning     // the contract expires within thirty days

  datatype Activity = Activity(user: int, due: Day, step: Step)

  datatype ContractError =
    | NotDraft | NotInReview | NotApprover | NotWaiting | NotApproved
    | NotTrasasFirst | NoInternalSignature | NoFinalScan
    | CannotCancel | CannotResetSigned | EmptyReason

  datatype Status = Ok | Err(error: ContractError)

  // ---------------------------------------------------------------------
  // Activities
  // ---------------------------------------------------------------------

  /** One activity per user of a group, all due the same day. */
  function ScheduleEach(users: seq<int>, due: Day, step: Step): (acts: seq<Activity>)
    ensures |acts| == |users|
    ensures forall i :: 0 <= i < |users| ==> acts[i] == Activity(users[i], due, step)
  {
    seq(|users|, i requires 0 <= i < |users| => Activity(users[i], due, step))
  }

  /** `_schedule_activity`: nothing is scheduled for an unset user. */
  function ScheduleFor(user: Option<int>, due: Day, step: Step): (acts: seq<Activity>)
    ensures user.None? ==> acts == []
    ensures user.Some? ==> acts == [Activity(user.value, due, step)]
  {
    if user.Some? then [Activity(user.value, due, step)] else []
  }

  /** An activity for the first user of a group, when the group has any. */
  function ScheduleFirst(users: seq<int>, due: Day, step: Step): (acts: seq<Activity>)
    ensures users == [] ==> acts == []
    ensures users != [] ==> acts == [Activity(users[0], due, step)]
  {
    if users != [] then [Activity(users[0], due, step)] else []
  }

  predicate HasExpiryWarning(acts: seq<Activity>) {
    exists i :: 0 <= i < |acts| && acts[i].step == ExpiryWarning
  }

  // ---------------------------------------------------------------------
  // Dates: computed fields, onchanges and the date constraint
  // ---------------------------------------------------------------------

  /** `_check_dates`: the start may not lie after the end. */
  predicate DatesOk(start: Option<Day>, end: Option<Day>) {
    start.Some? && end.Some? ==> start.value <= end.value
  }

  /** `duration_days`: the number of days of validity, both ends included. */
  function DurationDays(start: Option<Day>, end: Option<Day>): (d: int)
    ensures start.None? || end.None? ==> d == 0
    ensures start.Some? && end.Some? ==> start.value + d - 1 == end.value
  {
    if start.Some? && end.Some? then end.value - start.value + 1 else 0
  }

  /** A contract with both dates set passes the date constraint exactly when it lasts at least a day. */
  lemma DurationPositiveIffDatesOk(start: Day, end: Day)
    ensures DurationDays(Some(start), Some(end)) >= 1 <==> DatesOk(Some(start), Some(end))
  {
  }

  /**
   * `_onchange_contract_type_id`: a type with a non-zero default duration
   * sets the end date from the start date; `typeDuration` is None when no
   * type is chosen.
   */
  function OnchangeContractType(typeDuration: Option<int>, start: Option<Day>, end: Option<Day>): (r: Option<Day>)
    ensures typeDuration.None? || typeDuration == Some(0) || start.None? ==> r == end
    ensures typeDuration.Some? && typeDuration.value != 0 && start.Some? ==>
      r.Some? && DurationDays(start, r) == typeDuration.value
  {
    if typeDuration.Some? && typeDuration.value != 0 && start.Some? then
      Some(start.value + typeDuration.value - 1)
    else end
  }

  /** `_onchange_date_start`: the end date is only filled in when it is unset or before the start. */
  function OnchangeDateStart(typeDuration: Option<int>, start: Option<Day>, end: Option<Day>): (r: Option<Day>)
    ensures start.Some? && end.Some? && end.value >= start.value ==> r == end
    ensures typeDuration.None? || typeDuration == Some(0) || start.None? ==> r == end
    ensures r != end ==> typeDuration.Some? && r.Some? && DurationDays(start, r) == typeDuration.value
    ensures typeDuration.Some? && typeDuration.value != 0 && start.Some? && (end.None? || end.value < start.value) ==>
      r.Some? && DurationDays(start, r) == typeDuration.value
  {
    if start.Some? && typeDuration.Some? && typeDuration.value != 0 then
      if end.None? || end.value < start.value then Some(start.value + typeDuration.value - 1) else end
    else end
  }

  /** `_onchange_contract_date`: the signing deadline is the contract date plus seven days. */
  function OnchangeContractDate(contractDate: Option<Day>, deadline: Option<Day>): (r: Option<Day>)
    ensures contractDate.Some? ==> r == Some(contractDate.value + 7)
    ensures contractDate.None? ==> r == deadline
  {
    if contractDate.Some? then Some(contractDate.value + 7) else deadline
  }

  /**
   * Choosing a type with default duration D gives a contract of exactly D
   * days, and the result passes the date constraint exactly when D >= 1.
   */
  lemma OnchangeTypeGivesDuration(d: int, start: Day, end: Option<Day>)
    requires d != 0
    ensures OnchangeContractType(Some(d), Some(start), end) == Some(start + d - 1)
    ensures d >= 1 ==> DurationDays(Some(start), OnchangeContractType(Some(d), Some(start), end)) == d
    ensures DatesOk(Some(start), OnchangeContractType(Some(d), Some(start), end)) <==> d >= 1
  {
  }

  /**
   * Changing the start date never moves an end date that is already on or
   * after the start, and otherwise gives the type's duration.
   */
  lemma OnchangeDateStartKeepsValidEnd(d: int, start: Day, end: Option<Day>)
    requires d != 0
    ensures end.Some? && end.value >= start ==> OnchangeDateStart(Some(d), Some(start), end) == end
    ensures end.None? || end.value < start ==>
      DurationDays(Some(start), OnchangeDateStart(Some(d), Some(start), end)) == d
    ensures d >= 1 ==> DatesOk(Some(start), OnchangeDateStart(Some(d), Some(start), end))
  {
  }

  // ---------------------------------------------------------------------
  // Contract numbers
  // ---------------------------------------------------------------------

  /**
   * A numbering pattern, already split into its parts: literal text and the
   * `{code}`, `{year}` and `{sequence:0Nd}` fields (N = 0 for `{sequence}`).
   */
  datatype Piece = Lit(text: string) | CodeField | YearField | SequenceField(width: nat)

  datatype ContractType = ContractType(code: string, pattern: seq<Piece>)

  /** `{code}/{year}/{sequence:04d}` */
  const DefaultPattern: seq<Piece> := [CodeField, Lit("/"), YearField, Lit("/"), SequenceField(4)]

  /** The text one part of a pattern renders to. */
  function PieceText(piece: Piece, code: string, year: nat, sequence: nat): string {
    match piece
    case Lit(t) => t
    case CodeField => code
    case YearField => NatToString(year)
    case SequenceField(w) => ZeroPad(sequence, w)
  }

  function Render(pattern: seq<Piece>, code: string, year: nat, sequence: nat): string
  {
    if pattern == [] then "" else PieceText(pattern[0], code, year, sequence) + Render(pattern[1..], code, year, sequence)
  }

  /**
   * `_generate_contract_number`: the sequence is one more than the number of
   * contracts of the same type created this year; an empty pattern falls
   * back to the default one.
   */
  function GenerateContractNumber(t: ContractType, year: nat, sameTypeThisYear: nat): (r: string)
    ensures t.pattern == [] ==> r == t.code + "/" + NatToString(year) + "/" + ZeroPad(sameTypeThisYear + 1, 4)
  {
    if t.pattern == [] then
      RenderFive(DefaultPattern, t.code, year, sameTypeThisYear + 1);
      Render(DefaultPattern, t.code, year, sameTypeThisYear + 1)
    else Render(t.pattern, t.code, year, sameTypeThisYear + 1)
  }

  /** A five-part pattern renders to its parts' texts, one after the other. */
  lemma RenderFive(p: seq<Piece>, code: string, year: nat, n: nat)
    requires |p| == 5
    ensures Render(p, code, year, n)
         == PieceText(p[0], code, year, n) + PieceText(p[1], code, year, n) + PieceText(p[2], code, year, n)
          + PieceText(p[3], code, year, n) + PieceText(p[4], code, year, n)
  {
    var t0, t1, t2 := PieceText(p[0], code, year, n), PieceText(p[1], code, year, n), PieceText(p[2], code, year, n);
    var t3, t4 := PieceText(p[3], code, year, n), PieceText(p[4], code, year, n);
    assert p[1..][0] == p[1] && p[2..][0] == p[2] && p[3..][0] == p[3] && p[4..][0] == p[4];
    assert p[1..][1..] == p[2..] && p[2..][1..] == p[3..] && p[3..][1..] == p[4..] && p[4..][1..] == [];
    assert Render(p[4..], code, year, n) == t4;
    assert Render(p[3..], code, year, n) == t3 + t4;
    assert Render(p[2..], code, year, n) == t2 + (t3 + t4);
    assert Render(p[1..], code, year, n) == t1 + (t2 + (t3 + t4));
    assert Render(p, code, year, n) == t0 + (t1 + (t2 + (t3 + t4)));
    assert t0 + (t1 + (t2 + (t3 + t4))) == t0 + t1 + t2 + t3 + t4;
  }

  /** Under the default pattern the number is code, year and the padded sequence joined by slashes. */
  lemma DefaultNumberShape(code: string, year: nat, count: nat)
    ensures GenerateContractNumber(ContractType(code, []), year, count)
         == code + "/" + NatToString(year) + "/" + ZeroPad(count + 1, 4)
  {
    RenderFive(DefaultPattern, code, year, count + 1);
  }

  /** Up to 9999 contracts a year, the default sequence field has exactly four digits. */
  lemma DefaultSequenceWidth(count: nat)
    requires count < 9999
    ensures |ZeroPad(count + 1, 4)| == 4
  {
    NatToStringShort(count + 1);
  }

  lemma NatToStringShort(n: nat)
    requires n < 10000
    ensures |NatToString(n)| <= 4
  {
    if n >= 10 {
      var a := n / 10;
      if a >= 10 {
        var b := a / 10;
        if b >= 10 {
          assert |NatToString(b / 10)| == 1;
          assert |NatToString(b)| == 2;
        }
        assert |NatToString(b)| <= 2;
        assert |NatToString(a)| <= 3;
      }
    }
  }

  /**
   * Two contracts of one type numbered in the same year under the default
   * pattern get different numbers whenever their counts differ.
   */
  lemma DefaultNumbersDistinct(code: string, year: nat, m: nat, n: nat)
    requires m != n
    ensures GenerateContractNumber(ContractType(code, []), year, m)
         != GenerateContractNumber(ContractType(code, []), year, n)
  {
    DefaultNumberShape(code, year, m);
    DefaultNumberShape(code, year, n);
    var prefix := code + "/" + NatToString(year) + "/";
    if ZeroPad(m + 1, 4) == ZeroPad(n + 1, 4) {
      ZeroPadInjective(m + 1, n + 1, 4);
    } else {
      var a := ZeroPad(m + 1, 4);
      var b := ZeroPad(n + 1, 4);
      assert (prefix + a)[|prefix|..] == a;
      assert (prefix + b)[|prefix|..] == b;
    }
  }

  /**
   * `create`: a contract named "New" (or without a name) is numbered from
   * its type's pattern when the type has one, otherwise from the global
   * sequence (`sequenceNext`), falling back to "New".
   */
  function CreateName(name: Option<string>, ctype: Option<ContractType>, year: nat,
                      sameTypeThisYear: nat, sequenceNext: Option<string>): (r: string)
    ensures name.Some? && name.value != "New" ==> r == name.value
    ensures (name.None? || name.value == "New") && ctype.Some? && ctype.value.pattern != [] ==>
      r == Render(ctype.value.pattern, ctype.value.code, year, sameTypeThisYear + 1)
    ensures (name.None? || name.value == "New") && (ctype.None? || ctype.value.pattern == []) ==>
      r == (if sequenceNext.Some? && sequenceNext.value != "" then sequenceNext.value else "New")
  {
    if name.Some? && name.value != "New" then name.value
    else if ctype.Some? && ctype.value.pattern != [] then
      GenerateContractNumber(ctype.value, year, sameTypeThisYear)
    else if sequenceNext.Some? && sequenceNext.value != "" then sequenceNext.value
    else "New"
  }

  /** The activities the expiry cron leaves on one contract. */
  function AfterExpiryWarning(state: ContractState, end: Option<Day>, acts: seq<Activity>,
                              users: seq<int>, today: Day): seq<Activity>
  {
    if ExpiringSoon(state, end, today) && !HasExpiryWarning(acts)
    then acts + ScheduleEach(users, today, ExpiryWarning)
    else acts
  }

  // ---------------------------------------------------------------------
  // Cron conditions
  // ---------------------------------------------------------------------

  /** The expiry warning window: a signed contract ending within thirty days. */
  predicate ExpiringSoon(state: ContractState, end: Option<Day>, today: Day) {
    state == Signed && end.Some? && today <= end.value <= today + 30
  }

  /** A signed contract whose end date has passed. */
  predicate PastEnd(state: ContractState, end: Option<Day>, today: Day) {
    state == Signed && end.Some? && end.value < today
  }

  /** The signing-deadline reminder: approved or signing, deadline within seven days. */
  predicate DeadlineSoon(state: ContractState, deadline: Option<Day>, today: Day) {
    (state == Approved || state == Signing) && deadline.Some? && today <= deadline.value <= today + 7
  }

  // ---------------------------------------------------------------------
  // The record
  // ---------------------------------------------------------------------

  class Contract {
    const id: int
    var name: string
    var state: ContractState
    var signingFlow: SigningFlow
    var userId: Option<int>          // the creator
    var approverId: Option<int>
    var reviewerId: Option<int>
    var approvedDate: Option<Instant>
    var reviewDate: Option<Instant>
    var dateStart: Option<Day>
    var dateEnd: Option<Day>
    var contractDate: Option<Day>
    var signDeadline: Option<Day>
    var signedDate: Option<Day>
    var internalSignDate: Option<Instant>
    var sentToPartnerDate: Option<Day>
    var partnerSignDate: Option<Day>
    var finalScanFile: Bytes
    var finalScanFilename: string
    var rejectionReason: string
    var activities: seq<Activity>

    /** The record's constraints: `_check_dates` and `_check_signing_flow_completion`. */
    ghost predicate Valid()
      reads this
    {
      DatesOk(dateStart, dateEnd) &&
      (state == Signed ==> internalSignDate.Some? && finalScanFile != [])
    }

    /** `create`, with the name already worked out by CreateName. */
    constructor (id: int, name: string, flow: SigningFlow, creator: Option<int>,
                 dateStart: Option<Day>, dateEnd: Option<Day>, contractDate: Option<Day>)
      requires DatesOk(dateStart, dateEnd)
      ensures Valid()
      ensures this.id == id && this.name == name && state == Draft && signingFlow == flow
      ensures userId == creator && approverId.None? && reviewerId.None?
      ensures approvedDate.None? && reviewDate.None? && signedDate.None?
      ensures this.dateStart == dateStart && this.dateEnd == dateEnd
      ensures this.contractDate == contractDate && signDeadline.None?
      ensures internalSignDate.None? && sentToPartnerDate.None? && partnerSignDate.None?
      ensures finalScanFile == [] && finalScanFilename == "" && rejectionReason == "" && activities == []
    {
      this.id := id;
      this.name := name;
      state := Draft;
      signingFlow := flow;
      userId := creator;
      approverId := None;
      reviewerId := None;
      approvedDate := None;
      reviewDate := None;
      this.dateStart := dateStart;
      this.dateEnd := dateEnd;
      this.contractDate := contractDate;
      signDeadline := None;
      signedDate := None;
      internalSignDate := None;
      sentToPartnerDate := None;
      partnerSignDate := None;
      finalScanFile := [];
      finalScanFilename := "";
      rejectionReason := "";
      activities := [];
    }

    /** `action_submit_for_approval`: draft to waiting, one activity per approver. */
    method SubmitForApproval(approvers: seq<int>, today: Day) returns (r: Status)
      requires Valid()
      modifies this`state, this`activities
      ensures Valid()
      ensures r == if old(state) == Draft then Ok else Err(NotDraft)
      ensures r.Ok? ==> state == Waiting && activities == ScheduleEach(approvers, today + 1, ApprovalRequest)
      ensures r.Err? ==> state == old(state) && activities == old(activities)
    {
      if state != Draft {
        return Err(NotDraft);
      }
      state := Waiting;
      activities := ScheduleEach(approvers, today + 1, ApprovalRequest);
      r := Ok;
    }

    /** `action_submit_for_review`: draft to in review; the reviewer, or else every manager, gets an activity. */
    method SubmitForReview(managers: seq<int>, today: Day) returns (r: Status)
      requires Valid()
      modifies this`state, this`activities
      ensures Valid()
      ensures r == if old(state) == Draft then Ok else Err(NotDraft)
      ensures r.Ok? ==> (state == InReview &&
        activities == (if reviewerId.Some? then [Activity(reviewerId.value, today + 1, ReviewRequest)]
                       else ScheduleEach(managers, today + 1, ReviewRequest)))
      ensures r.Err? ==> state == old(state) && activities == old(activities)
    {
      if state != Draft {
        return Err(NotDraft);
      }
      state := InReview;
      if reviewerId.Some? {
        activities := [Activity(reviewerId.value, today + 1, ReviewRequest)];
      } else {
        activities := ScheduleEach(managers, today + 1, ReviewRequest);
      }
      r := Ok;
    }

    /** `action_confirm_review`: in review to waiting, recording who reviewed and when. */
    method ConfirmReview(uid: int, now: Instant, approvers: seq<int>, today: Day) returns (r: Status)
      requires Valid()
      modifies this`state, this`reviewerId, this`reviewDate, this`activities
      ensures Valid()
      ensures r == if old(state) == InReview then Ok else Err(NotInReview)
      ensures r.Ok? ==> (state == Waiting && reviewerId == Some(uid) && reviewDate == Some(now) &&
        activities == ScheduleEach(approvers, today + 2, ApprovalRequest))
      ensures r.Err? ==> (state == old(state) && reviewerId == old(reviewerId) &&
        reviewDate == old(reviewDate) && activities == old(activities))
    {
      if state != InReview {
        return Err(NotInReview);
      }
      state := Waiting;
      reviewerId := Some(uid);
      reviewDate := Some(now);
      activities := ScheduleEach(approvers, today + 2, ApprovalRequest);
      r := Ok;
    }

    /** `action_approve`: only an approver, only from waiting; records the approver and the time. */
    method Approve(userIsApprover: bool, uid: int, now: Instant, today: Day) returns (r: Status)
      requires Valid()
      modifies this`state, this`approverId, this`approvedDate, this`activities
      ensures Valid()
      ensures r == if !userIsApprover then Err(NotApprover)
                   else if old(state) != Waiting then Err(NotWaiting) else Ok
      ensures r.Ok? ==> (state == Approved && approverId == Some(uid) && approvedDate == Some(now) &&
        activities == ScheduleFor(userId, today + 2, BeginSigning))
      ensures r.Err? ==> (state == old(state) && approverId == old(approverId) &&
        approvedDate == old(approvedDate) && activities == old(activities))
    {
      if !userIsApprover {
        return Err(NotApprover);
      }
      if state != Waiting {
        return Err(NotWaiting);
      }
      state := Approved;
      approverId := Some(uid);
      approvedDate := Some(now);
      activities := ScheduleFor(userId, today + 2, BeginSigning);
      r := Ok;
    }

    /**
     * `action_reject`: the guard in front of the rejection wizard. It changes
     * nothing; Ok means the wizard opens.
     */
    method Reject(userIsApprover: bool) returns (r: Status)
      ensures r.Ok? <==> userIsApprover && state == Waiting
      ensures !userIsApprover ==> r == Err(NotApprover)
      ensures userIsApprover && state != Waiting ==> r == Err(NotWaiting)
    {
      if !userIsApprover {
        return Err(NotApprover);
      }
      if state != Waiting {
        return Err(NotWaiting);
      }
      r := Ok;
    }

    /**
     * `action_confirm_rejection` and the rejection wizard's write: back to
     * draft with the reason; the old activities are closed and the creator
     * gets one due today. The contract's state is not checked.
     */
    method ConfirmRejection(reason: string, today: Day)
      requires Valid()
      modifies this`state, this`rejectionReason, this`activities
      ensures Valid()
      ensures state == Draft && rejectionReason == reason
      ensures activities == ScheduleFor(userId, today, FixRejected)
    {
      state := Draft;
      rejectionReason := reason;
      activities := ScheduleFor(userId, today, FixRejected);
    }

    /** `action_start_signing`: approved to signing; the first activity depends on the flow. */
    method StartSigning(approvers: seq<int>, today: Day) returns (r: Status)
      requires Valid()
      modifies this`state, this`activities
      ensures Valid()
      ensures r == if old(state) == Approved then Ok else Err(NotApproved)
      ensures r.Ok? ==> (state == Signing &&
        activities == (if signingFlow == TrasasFirst then ScheduleFirst(approvers, today + 2, SignInternalFirst)
                       else ScheduleFor(userId, today + 5, AwaitPartner)))
      ensures r.Err? ==> state == old(state) && activities == old(activities)
    {
      if state != Approved {
        return Err(NotApproved);
      }
      state := Signing;
      if signingFlow == TrasasFirst {
        activities := ScheduleFirst(approvers, today + 2, SignInternalFirst);
      } else {
        activities := ScheduleFor(userId, today + 5, AwaitPartner);
      }
      r := Ok;
    }

    /** `action_mark_internal_signed`: records the internal signature time, in any state. */
    method MarkInternalSigned(now: Instant, today: Day)
      requires Valid()
      modifies this`internalSignDate, this`activities
      ensures Valid()
      ensures internalSignDate == Some(now)
      ensures activities == ScheduleFor(userId, today + 1,
                                        if signingFlow == TrasasFirst then SendToPartner else CheckAndComplete)
    {
      internalSignDate := Some(now);
      activities := ScheduleFor(userId, today + 1,
                                if signingFlow == TrasasFirst then SendToPartner else CheckAndComplete);
    }

    /** `action_mark_sent_to_partner`: only in the TRASAS-first flow. */
    method MarkSentToPartner(today: Day) returns (r: Status)
      requires Valid()
      modifies this`sentToPartnerDate, this`activities
      ensures Valid()
      ensures r == if signingFlow == TrasasFirst then Ok else Err(NotTrasasFirst)
      ensures r.Ok? ==> (sentToPartnerDate == Some(today) &&
        activities == ScheduleFor(userId, today + 7, FollowUpPartner))
      ensures r.Err? ==> sentToPartnerDate == old(sentToPartnerDate) && activities == old(activities)
    {
      if signingFlow != TrasasFirst {
        return Err(NotTrasasFirst);
      }
      sentToPartnerDate := Some(today);
      activities := ScheduleFor(userId, today + 7, FollowUpPartner);
      r := Ok;
    }

    /**
     * `action_mark_partner_signed`: records today as the partner's signing
     * date; in the partner-first flow the director is asked to sign next.
     */
    method MarkPartnerSigned(approvers: seq<int>, today: Day)
      requires Valid()
      modifies this`partnerSignDate, this`activities
      ensures Valid()
      ensures partnerSignDate == Some(today)
      ensures activities == if signingFlow == PartnerFirst then ScheduleFirst(approvers, today + 2, SignAfterPartner)
                            else old(activities)
    {
      partnerSignDate := Some(today);
      if signingFlow == PartnerFirst {
        activities := ScheduleFirst(approvers, today + 2, SignAfterPartner);
      }
    }

    /**
     * `_complete_signing` (and the `action_confirm_signed` button, which calls
     * it): a no-op outside signing; otherwise it needs the internal signature
     * and the final scan, then the contract is signed today.
     */
    method CompleteSigning(managers: seq<int>, today: Day) returns (r: Status)
      requires Valid()
      modifies this`state, this`signedDate, this`activities
      ensures Valid()
      ensures r == if old(state) != Signing then Ok
                   else if internalSignDate.None? then Err(NoInternalSignature)
                   else if finalScanFile == [] then Err(NoFinalScan)
                   else Ok
      ensures old(state) == Signing && r.Ok? ==>
        state == Signed && signedDate == Some(today) &&
        activities == old(activities) + ScheduleFirst(managers, today + 1, SealAndStore)
      ensures old(state) != Signing || r.Err? ==>
        state == old(state) && signedDate == old(signedDate) && activities == old(activities)
    {
      if state != Signing {
        return Ok;
      }
      if internalSignDate.None? {
        return Err(NoInternalSignature);
      }
      if finalScanFile == [] {
        return Err(NoFinalScan);
      }
      state := Signed;
      signedDate := Some(today);
      activities := activities + ScheduleFirst(managers, today + 1, SealAndStore);
      r := Ok;
    }

    /** `action_cancel`: refused for signed and expired contracts. */
    method CancelContract() returns (r: Status)
      requires Valid()
      modifies this`state
      ensures Valid()
      ensures r == if old(state) == Signed || old(state) == Expired then Err(CannotCancel) else Ok
      ensures state == if r.Ok? then Cancel else old(state)
    {
      if state == Signed || state == Expired {
        return Err(CannotCancel);
      }
      state := Cancel;
      r := Ok;
    }

    /** `action_set_to_draft`: refused for signed contracts; clears the approval and the rejection reason. */
    method SetToDraft() returns (r: Status)
      requires Valid()
      modifies this`state, this`approverId, this`approvedDate, this`rejectionReason
      ensures Valid()
      ensures r == if old(state) == Signed then Err(CannotResetSigned) else Ok
      ensures r.Ok? ==> state == Draft && approverId.None? && approvedDate.None? && rejectionReason == ""
      ensures r.Err? ==> (state == old(state) && approverId == old(approverId) &&
        approvedDate == old(approvedDate) && rejectionReason == old(rejectionReason))
    {
      if state == Signed {
        return Err(CannotResetSigned);
      }
      state := Draft;
      approverId := None;
      approvedDate := None;
      rejectionReason := "";
      r := Ok;
    }
  }

  // ---------------------------------------------------------------------
  // Crons
  // ---------------------------------------------------------------------

  /**
   * `_cron_check_expiring_contracts`: every signed contract ending within
   * thirty days that has no expiry activity yet gets one per user of the
   * contract-user group, due today; then every signed contract whose end
   * date has passed becomes expired.
   */
  method CronCheckExpiringContracts(cs: seq<Contract>, users: seq<int>, today: Day)
    requires forall i, j :: 0 <= i < j < |cs| ==> cs[i] != cs[j]
    requires forall i :: 0 <= i < |cs| ==> cs[i].Valid()
    modifies (set c | c in cs)`activities, (set c | c in cs)`state
    ensures forall i :: 0 <= i < |cs| ==> cs[i].Valid()
    ensures forall i :: 0 <= i < |cs| ==>
      cs[i].activities == AfterExpiryWarning(old(cs[i].state), cs[i].dateEnd, old(cs[i].activities), users, today)
    ensures forall i :: 0 <= i < |cs| ==>
      cs[i].state == (if PastEnd(old(cs[i].state), cs[i].dateEnd, today) then Expired else old(cs[i].state))
  {
    WarnExpiring(cs, users, today);
    ExpirePast(cs, today);
  }

  /** The first pass: the expiry warnings, due today, on the contracts ending within thirty days. */
  method WarnExpiring(cs: seq<Contract>, users: seq<int>, today: Day)
    requires forall i, j :: 0 <= i < j < |cs| ==> cs[i] != cs[j]
    requires forall i :: 0 <= i < |cs| ==> cs[i].Valid()
    modifies (set c | c in cs)`activities
    ensures forall i :: 0 <= i < |cs| ==> cs[i].Valid()
    ensures forall i :: 0 <= i < |cs| ==>
      cs[i].activities == AfterExpiryWarning(cs[i].state, cs[i].dateEnd, old(cs[i].activities), users, today)
  {
    var k := 0;
    while k < |cs|
      invariant 0 <= k <= |cs|
      invariant forall i :: 0 <= i < |cs| ==> cs[i].Valid()
      invariant forall i :: 0 <= i < k ==>
        cs[i].activities == AfterExpiryWarning(cs[i].state, cs[i].dateEnd, old(cs[i].activities), users, today)
      invariant forall i :: k <= i < |cs| ==> cs[i].activities == old(cs[i].activities)
    {
      var c := cs[k];
      if ExpiringSoon(c.state, c.dateEnd, today) && !HasExpiryWarning(c.activities) {
        c.activities := c.activities + ScheduleEach(users, today, ExpiryWarning);
      }
      k := k + 1;
    }
  }

  /** The second pass: a signed contract whose end date has passed becomes expired. */
  method ExpirePast(cs: seq<Contract>, today: Day)
    requires forall i, j :: 0 <= i < j < |cs| ==> cs[i] != cs[j]
    requires forall i :: 0 <= i < |cs| ==> cs[i].Valid()
    modifies (set c | c in cs)`state
    ensures forall i :: 0 <= i < |cs| ==> cs[i].Valid()
    ensures forall i :: 0 <= i < |cs| ==>
      cs[i].state == (if PastEnd(old(cs[i].state), cs[i].dateEnd, today) then Expired else old(cs[i].state))
  {
    var k := 0;
    while k < |cs|
      invariant 0 <= k <= |cs|
      invariant forall i :: 0 <= i < |cs| ==> cs[i].Valid()
      invariant forall i :: 0 <= i < k ==>
        cs[i].state == (if PastEnd(old(cs[i].state), cs[i].dateEnd, today) then Expired else old(cs[i].state))
      invariant forall i :: k <= i < |cs| ==> cs[i].state == old(cs[i].state)
    {
      var c := cs[k];
      if PastEnd(c.state, c.dateEnd, today) {
        c.state := Expired;
      }
      k := k + 1;
    }
  }

  /**
   * `_cron_check_signing_deadline`: the contracts that get a reminder, those
   * approved or signing whose deadline falls within the next seven days.
   */
  method CronSigningDeadline(cs: seq<Contract>, today: Day) returns (reminded: seq<Contract>)
    ensures forall c :: c in reminded <==> c in cs && DeadlineSoon(c.state, c.signDeadline, today)
  {
    reminded := [];
    var k := 0;
    while k < |cs|
      invariant 0 <= k <= |cs|
      invariant forall c :: c in reminded <==> c in cs[..k] && DeadlineSoon(c.state, c.signDeadline, today)
    {
      if DeadlineSoon(cs[k].state, cs[k].signDeadline, today) {
        reminded := reminded + [cs[k]];
      }
      assert cs[..k + 1] == cs[..k] + [cs[k]];
      k := k + 1;
    }
    assert cs[..k] == cs;
  }
}
