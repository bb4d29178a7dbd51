/**
 * Incoming official letters: registration with a system number, the date
 * order they must respect, the processing workflow (confirm, respond,
 * confirm the response, done, cancel, back to draft) and the overdue flag
 * with its daily reminder.
 */
module DispatchIncoming {
  import opened Common

  datatype IncomingState = Draft | Processing | WaitingConfirmation | Done | Cancelled

  /** The states in which a letter is still being handled. */
  predicate InProgress(s: IncomingState) {
    s == Processing || s == WaitingConfirmation
  }

  // ---------------------------------------------------------------------
  // Overdue
  // ---------------------------------------------------------------------

  datatype OverdueInfo = OverdueInfo(isOverdue: bool, overdueDays: int)

  /**
   * `_compute_is_overdue`: a letter still in hand whose deadline has passed
   * is overdue by the days since the deadline; any other letter is not.
   */
  function Overdue(state: IncomingState, deadline: Option<Day>, today: Day): (o: OverdueInfo)
    ensures o.isOverdue <==> InProgress(state) && deadline.Some? && deadline.value < today
    ensures o.isOverdue ==> o.overdueDays == today - deadline.value
    ensures !o.isOverdue ==> o.overdueDays == 0
  {
    if InProgress(state) && deadline.Some? && deadline.value < today then OverdueInfo(true, today - deadline.value)
    else OverdueInfo(false, 0)
  }

  /** The day count alone tells whether a letter is overdue. */
  lemma OverdueDaysPositiveIff(state: IncomingState, deadline: Option<Day>, today: Day)
    ensures Overdue(state, deadline, today).overdueDays > 0 <==> Overdue(state, deadline, today).isOverdue
  {
  }

  // ---------------------------------------------------------------------
  // Dates
  // ---------------------------------------------------------------------

  datatype DateError = DispatchAfterReceived | ReceivedAfterDeadline

  /** `_check_dates`: the letter's date, its arrival and its deadline in order, wherever they are set. */
  function CheckDates(dispatchDate: Option<Day>, dateReceived: Option<Day>, deadline: Option<Day>): (e: Option<DateError>)
    ensures e == Some(DispatchAfterReceived) <==>
      (dispatchDate.Some? && dateReceived.Some? && dispatchDate.value > dateReceived.value)
    ensures e.None? <==>
      (dispatchDate.Some? && dateReceived.Some? ==> dispatchDate.value <= dateReceived.value) &&
      (dateReceived.Some? && deadline.Some? ==> dateReceived.value <= deadline.value)
  {
    if dispatchDate.Some? && dateReceived.Some? && dispatchDate.value > dateReceived.value then Some(DispatchAfterReceived)
    else if dateReceived.Some? && deadline.Some? && dateReceived.value > deadline.value then Some(ReceivedAfterDeadline)
    else None
  }

  /** A letter with all three dates accepted arrives before its deadline and is dated no later. */
  lemma AcceptedDatesChain(dispatchDate: Day, dateReceived: Day, deadline: Day)
    requires CheckDates(Some(dispatchDate), Some(dateReceived), Some(deadline)).None?
    ensures dispatchDate <= dateReceived <= deadline
  {
  }

  // ---------------------------------------------------------------------
  // The workflow
  // ---------------------------------------------------------------------

  /** The fields the actions read and write. */
  datatype Incoming = Incoming(state: IncomingState, responseRequired: bool, handlerIds: seq<nat>,
                               attachmentIds: seq<nat>, responseNumber: string, responseDate: Option<Day>,
                               hasResponseFile: bool)

  datatype IncomingAction =
    | Confirm | MarkDone | Cancel | ResetToDraft | SubmitResponse | ConfirmResponse | GenerateResponseNumber

  datatype IncomingError = HandlersRequired | AttachmentRequired | ResponseRequired | ResponseFileRequired

  datatype Outcome = Applied(record: Incoming) | Refused(error: IncomingError)

  /**
   * One action on one letter. `drawn` is what the response sequence would
   * yield (empty when it has no sequence) and `today` the current date.
   */
  function Apply(r: Incoming, a: IncomingAction, drawn: string, today: Day): (o: Outcome)
    ensures a == Confirm ==> (o.Applied? <==> (!r.responseRequired || r.handlerIds != []) && r.attachmentIds != [])
    ensures a == MarkDone ==> (o.Applied? <==> !r.responseRequired)
    ensures a == SubmitResponse ==> (o.Applied? <==> r.hasResponseFile)
    ensures a == Cancel || a == ResetToDraft || a == ConfirmResponse || a == GenerateResponseNumber ==> o.Applied?
    ensures o.Applied? ==> o.record.state == match a
      case Confirm => Processing
      case MarkDone => Done
      case Cancel => Cancelled
      case ResetToDraft => Draft
      case SubmitResponse => WaitingConfirmation
      case ConfirmResponse => Done
      case GenerateResponseNumber => r.state
    ensures o.Applied? ==> (o.record.responseRequired == r.responseRequired && o.record.handlerIds == r.handlerIds &&
      o.record.attachmentIds == r.attachmentIds && o.record.hasResponseFile == r.hasResponseFile)
    ensures o.Applied? && r.responseNumber != "" ==> o.record.responseNumber == r.responseNumber
    ensures o.Applied? && a == SubmitResponse ==>
      o.record.responseNumber == FillNumber(r.responseNumber, drawn) &&
      o.record.responseDate == (if r.responseDate.Some? then r.responseDate else Some(today))
  {
    match a
    case Confirm =>
      if r.responseRequired && r.handlerIds == [] then Refused(HandlersRequired)
      else if r.attachmentIds == [] then Refused(AttachmentRequired)
      else Applied(r.(state := Processing))
    case MarkDone =>
      if r.responseRequired then Refused(ResponseRequired) else Applied(r.(state := Done))
    case Cancel => Applied(r.(state := Cancelled))
    case ResetToDraft => Applied(r.(state := Draft))
    case SubmitResponse =>
      if !r.hasResponseFile then Refused(ResponseFileRequired)
      else Applied(r.(responseNumber := FillNumber(r.responseNumber, drawn), state := WaitingConfirmation,
                      responseDate := if r.responseDate.Some? then r.responseDate else Some(today)))
    case ConfirmResponse => Applied(r.(state := Done))
    case GenerateResponseNumber => Applied(r.(responseNumber := FillNumber(r.responseNumber, drawn)))
  }

  /** One button press, with what the sequence yields and the date at that moment. */
  datatype Press = Press(action: IncomingAction, drawn: string, today: Day)

  /** A series of presses; a refused one leaves the letter as it was. */
  function Run(r: Incoming, presses: seq<Press>): Incoming
    decreases |presses|
  {
    if presses == [] then r
    else
      var o := Apply(r, presses[0].action, presses[0].drawn, presses[0].today);
      Run(if o.Applied? then o.record else r, presses[1..])
  }

  /** Once a letter has a response number, no series of actions changes it. */
  lemma {:induction false} ResponseNumberStable(r: Incoming, presses: seq<Press>)
    requires r.responseNumber != ""
    ensures Run(r, presses).responseNumber == r.responseNumber
    decreases |presses|
  {
    if presses != [] {
      var o := Apply(r, presses[0].action, presses[0].drawn, presses[0].today);
      ResponseNumberStable(if o.Applied? then o.record else r, presses[1..]);
    }
  }

  /** No action changes whether a response is required, the handlers, the attachments or the response file. */
  lemma {:induction false} RunKeepsLetterData(r: Incoming, presses: seq<Press>)
    ensures var e := Run(r, presses);
      e.responseRequired == r.responseRequired && e.handlerIds == r.handlerIds &&
      e.attachmentIds == r.attachmentIds && e.hasResponseFile == r.hasResponseFile
    decreases |presses|
  {
    if presses != [] {
      var o := Apply(r, presses[0].action, presses[0].drawn, presses[0].today);
      RunKeepsLetterData(if o.Applied? then o.record else r, presses[1..]);
    }
  }

  /**
   * A letter that needs a response only reaches `done` through the
   * confirmation of its response: the plain done action always refuses it.
   */
  lemma {:induction false} DoneWithResponseNeedsConfirmation(r: Incoming, presses: seq<Press>)
    requires r.responseRequired && r.state != Done
    requires Run(r, presses).state == Done
    ensures exists i :: 0 <= i < |presses| && presses[i].action == ConfirmResponse
    decreases |presses|
  {
    assert presses != [];
    var o := Apply(r, presses[0].action, presses[0].drawn, presses[0].today);
    var next := if o.Applied? then o.record else r;
    if presses[0].action != ConfirmResponse {
      assert next.state != Done && next.responseRequired;
      DoneWithResponseNeedsConfirmation(next, presses[1..]);
      var i :| 0 <= i < |presses[1..]| && presses[1..][i].action == ConfirmResponse;
      assert presses[i + 1].action == ConfirmResponse;
    }
  }

  /** A letter only comes into processing with an attachment, and with handlers when it needs a response. */
  lemma {:induction false} ProcessingNeedsAttachment(r: Incoming, presses: seq<Press>)
    requires r.state != Processing
    requires Run(r, presses).state == Processing
    ensures r.attachmentIds != [] && (r.responseRequired ==> r.handlerIds != [])
    decreases |presses|
  {
    assert presses != [];
    var o := Apply(r, presses[0].action, presses[0].drawn, presses[0].today);
    var next := if o.Applied? then o.record else r;
    if next.state != Processing {
      ProcessingNeedsAttachment(next, presses[1..]);
    }
  }

  // ---------------------------------------------------------------------
  // The record
  // ---------------------------------------------------------------------

  /** The outcome an action method reports, and the record it leaves, agree with `Apply`. */
  predicate Matches(o: Outcome, err: Option<IncomingError>, after: Incoming, before: Incoming) {
    (o.Applied? ==> err.None? && after == o.record) &&
    (o.Refused? ==> err == Some(o.error) && after == before)
  }

  class IncomingDispatch {
    var name: string
    var active: bool
    const dispatchNumber: string
    const dispatchDate: Option<Day>
    const dateReceived: Option<Day>
    var deadline: Option<Day>
    var state: IncomingState
    var responseRequired: bool
    var handlerIds: seq<nat>
    var attachmentIds: seq<nat>
    var responseNumber: string
    var responseDate: Option<Day>
    var hasResponseFile: bool

    function Data(): Incoming
      reads this
    {
      Incoming(state, responseRequired, handlerIds, attachmentIds, responseNumber, responseDate, hasResponseFile)
    }

    /** `is_overdue` and `overdue_days` as of `today`. */
    function OverdueNow(today: Day): OverdueInfo
      reads this
    {
      Overdue(state, deadline, today)
    }

    constructor (name: string, dispatchNumber: string, dispatchDate: Option<Day>, dateReceived: Option<Day>,
                 deadline: Option<Day>, responseRequired: bool, handlerIds: seq<nat>, attachmentIds: seq<nat>)
      ensures this.name == name && active && this.dispatchNumber == dispatchNumber
      ensures this.dispatchDate == dispatchDate && this.dateReceived == dateReceived && this.deadline == deadline
      ensures Data() == Incoming(Draft, responseRequired, handlerIds, attachmentIds, "", None, false)
    {
      this.name := name;
      active := true;
      this.dispatchNumber := dispatchNumber;
      this.dispatchDate := dispatchDate;
      this.dateReceived := dateReceived;
      this.deadline := deadline;
      state := Draft;
      this.responseRequired := responseRequired;
      this.handlerIds := handlerIds;
      this.attachmentIds := attachmentIds;
      responseNumber := "";
      responseDate := None;
      hasResponseFile := false;
    }

    /** `action_confirm`. */
    method ActionConfirm() returns (err: Option<IncomingError>)
      modifies this`state
      ensures Matches(Apply(old(Data()), Confirm, "", 0), err, Data(), old(Data()))
    {
      if responseRequired && handlerIds == [] {
        return Some(HandlersRequired);
      }
      if attachmentIds == [] {
        return Some(AttachmentRequired);
      }
      state := Processing;
      err := None;
    }

    /** `action_done`, for letters that need no response. */
    method ActionDone() returns (err: Option<IncomingError>)
      modifies this`state
      ensures Matches(Apply(old(Data()), MarkDone, "", 0), err, Data(), old(Data()))
    {
      if responseRequired {
        return Some(ResponseRequired);
      }
      state := Done;
      err := None;
    }

    /** `action_cancel`. */
    method ActionCancel()
      modifies this`state
      ensures Data() == Apply(old(Data()), Cancel, "", 0).record
    {
      state := Cancelled;
    }

    /** `action_draft`. */
    method ActionDraft()
      modifies this`state
      ensures Data() == Apply(old(Data()), ResetToDraft, "", 0).record
    {
      state := Draft;
    }

    /**
     * `action_submit_response`. The number drawn before the file check is
     * rolled back with the refusal.
     */
    method ActionSubmitResponse(drawn: string, today: Day) returns (err: Option<IncomingError>)
      modifies this`state, this`responseNumber, this`responseDate
      ensures Matches(Apply(old(Data()), SubmitResponse, drawn, today), err, Data(), old(Data()))
    {
      if !hasResponseFile {
        return Some(ResponseFileRequired);
      }
      if responseNumber == "" {
        responseNumber := drawn;
      }
      state := WaitingConfirmation;
      if responseDate.None? {
        responseDate := Some(today);
      }
      err := None;
    }

    /** `action_confirm_response`. */
    method ActionConfirmResponse()
      modifies this`state
      ensures Data() == Apply(old(Data()), ConfirmResponse, "", 0).record
    {
      state := Done;
    }

    /** `action_generate_response_number`. */
    method ActionGenerateResponseNumber(drawn: string)
      modifies this`responseNumber
      ensures Data() == Apply(old(Data()), GenerateResponseNumber, drawn, 0).record
    {
      if responseNumber == "" {
        responseNumber := drawn;
      }
    }
  }

  // ---------------------------------------------------------------------
  // Creation and the daily check
  // ---------------------------------------------------------------------

  datatype CreateError = DuplicateNumber | BadDates(e: DateError)

  datatype Created = Created(rec: IncomingDispatch) | NotCreated(error: CreateError)

  /** Whether a letter with this original number is already registered. */
  method NumberTaken(existing: seq<IncomingDispatch>, number: string) returns (taken: bool)
    ensures taken <==> exists d :: d in existing && d.dispatchNumber == number
  {
    taken := false;
    var k := 0;
    while k < |existing|
      invariant 0 <= k <= |existing|
      invariant taken <==> exists d :: d in existing[..k] && d.dispatchNumber == number
    {
      if existing[k].dispatchNumber == number {
        taken := true;
      }
      assert existing[..k + 1] == existing[..k] + [existing[k]];
      k := k + 1;
    }
    assert existing[..k] == existing;
  }

  /**
   * `create`: refused when the original number is already registered (the
   * unique constraint, which also counts archived letters) or the dates are
   * out of order; otherwise a new draft letter with its system number.
   */
  method CreateIncoming(existing: seq<IncomingDispatch>, givenName: Option<string>, drawn: string,
                        dispatchNumber: string, dispatchDate: Option<Day>, dateReceived: Option<Day>,
                        deadline: Option<Day>, responseRequired: bool, handlerIds: seq<nat>,
                        attachmentIds: seq<nat>) returns (c: Created)
    ensures c.NotCreated? <==>
      (exists d :: d in existing && d.dispatchNumber == dispatchNumber) || CheckDates(dispatchDate, dateReceived, deadline).Some?
    ensures c.Created? ==> (fresh(c.rec) && c.rec.name == SystemName(givenName, drawn) &&
      c.rec.dispatchNumber == dispatchNumber && c.rec.deadline == deadline &&
      c.rec.Data() == Incoming(Draft, responseRequired, handlerIds, attachmentIds, "", None, false))
  {
    var taken := NumberTaken(existing, dispatchNumber);
    if taken {
      return NotCreated(DuplicateNumber);
    }
    var bad := CheckDates(dispatchDate, dateReceived, deadline);
    if bad.Some? {
      return NotCreated(BadDates(bad.value));
    }
    var rec := new IncomingDispatch(SystemName(givenName, drawn), dispatchNumber, dispatchDate, dateReceived,
                                    deadline, responseRequired, handlerIds, attachmentIds);
    c := Created(rec);
  }

  /**
   * `check_overdue_deadline`: the letters the daily reminder goes to, the
   * unarchived ones still in hand whose deadline has passed.
   */
  method CheckOverdueDeadline(letters: seq<IncomingDispatch>, today: Day) returns (overdue: seq<IncomingDispatch>)
    ensures forall d :: d in overdue <==> d in letters && d.active && d.OverdueNow(today).isOverdue
  {
    overdue := [];
    var k := 0;
    while k < |letters|
      invariant 0 <= k <= |letters|
      invariant forall d :: d in overdue <==> d in letters[..k] && d.active && d.OverdueNow(today).isOverdue
    {
      var d := letters[k];
      if d.active && (d.state == Processing || d.state == WaitingConfirmation) && d.deadline.Some? && d.deadline.value < today {
        overdue := overdue + [d];
      }
      assert letters[..k + 1] == letters[..k] + [d];
      k := k + 1;
    }
    assert letters[..k] == letters;
  }
}
