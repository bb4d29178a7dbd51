/**
 * Outgoing official letters: drafted, approved by a director, promulgated
 * by the administration department (which grants the official number),
 * released and sent to the recipient.
 */
module DispatchOutgoing {
  import opened Common

  datatype OutgoingState =
    | Draft | WaitingApproval | Approved | ToPromulgate | Processing | Released | Sent | Done | Cancelled

  // ---------------------------------------------------------------------
  // Lookups
  // ---------------------------------------------------------------------

  /** An employee, reduced to its department and its user. */
  datatype Employee = Employee(departmentId: Option<nat>, userId: Option<nat>)

  /**
   * `_default_approver`: the user of the first employee of the board of
   * directors that has a user; none when that department does not exist.
   */
  function DefaultApprover(board: Option<nat>, employees: seq<Employee>): (u: Option<nat>)
    ensures u.Some? <==> board.Some? && exists i :: 0 <= i < |employees| && employees[i].departmentId == board && employees[i].userId.Some?
    ensures u.Some? ==> exists i :: (0 <= i < |employees| && employees[i].departmentId == board && employees[i].userId == u &&
      forall j :: 0 <= j < i ==> !(employees[j].departmentId == board && employees[j].userId.Some?))
    decreases |employees|
  {
    if board.None? || employees == [] then None
    else if employees[0].departmentId == board && employees[0].userId.Some? then employees[0].userId
    else
      var rest := DefaultApprover(board, employees[1..]);
      if rest.Some? then
        var i :| 0 <= i < |employees[1..]| && employees[1..][i].departmentId == board && employees[1..][i].userId == rest &&
          forall j :: 0 <= j < i ==> !(employees[1..][j].departmentId == board && employees[1..][j].userId.Some?);
        assert employees[i + 1].departmentId == board && employees[i + 1].userId == rest;
        rest
      else rest
  }

  /**
   * `_compute_department_id`: the department of the drafter's first
   * employee, none when the drafter has no employee. The argument lists the
   * departments of the drafter's employees in order.
   */
  function DepartmentOf(employeeDepartments: seq<Option<nat>>): (d: Option<nat>)
    ensures employeeDepartments == [] ==> d.None?
    ensures employeeDepartments != [] ==> d == employeeDepartments[0]
  {
    if employeeDepartments == [] then None else employeeDepartments[0]
  }

  /** A department, reduced to its manager's user (none without a manager or a user). */
  datatype Department = Department(managerUserId: Option<nat>)

  /**
   * The administration manager `action_send_to_hcns` notifies: the
   * department with the known XML id, or else the first one named like
   * the administration; its manager's user.
   */
  function HcnsManager(byXmlid: Option<Department>, byName: Option<Department>): (u: Option<nat>)
    ensures byXmlid.Some? ==> u == byXmlid.value.managerUserId
    ensures byXmlid.None? && byName.Some? ==> u == byName.value.managerUserId
    ensures byXmlid.None? && byName.None? ==> u.None?
  {
    var dept := if byXmlid.Some? then byXmlid else byName;
    if dept.Some? then dept.value.managerUserId else None
  }

  /** `_compute_is_user_approver`. */
  function IsUserApprover(approverId: Option<nat>, currentUser: nat): (b: bool)
    ensures b <==> approverId == Some(currentUser)
  {
    approverId.Some? && approverId.value == currentUser
  }

  // ---------------------------------------------------------------------
  // The workflow
  // ---------------------------------------------------------------------

  /** The fields the actions read and write. */
  datatype Outgoing = Outgoing(state: OutgoingState, dispatchNumber: string, datePromulgated: Option<Day>,
                               hasDraftFile: bool, hasOfficialFile: bool)

  datatype OutgoingAction =
    | Submit | Approve | Reject | SendToHcns | GenerateNumber | Release | Send | MarkDone | Cancel | ResetToDraft

  /**
   * What an action may depend on besides the record: the number the
   * official sequence would yield (empty when it has none), the date, and
   * the administration manager found.
   */
  datatype Env = Env(drawn: string, today: Day, hcnsManager: Option<nat>)

  datatype OutgoingError = DraftFileRequired | NoHcnsManager | OfficialFileRequired

  datatype Outcome = Applied(record: Outgoing) | Refused(error: OutgoingError)

  /** The state an action moves to when it goes through. */
  function TargetState(a: OutgoingAction): OutgoingState {
    match a
    case Submit => WaitingApproval
    case Approve => Approved
    case Reject => Draft
    case SendToHcns => ToPromulgate
    case GenerateNumber => Processing
    case Release => Released
    case Send => Sent
    case MarkDone => Done
    case Cancel => Cancelled
    case ResetToDraft => Draft
  }

  /** One action on one letter. None of them looks at the current state. */
  function Apply(r: Outgoing, a: OutgoingAction, env: Env): (o: Outcome)
    ensures a == Submit ==> (o.Applied? <==> r.hasDraftFile)
    ensures a == SendToHcns ==> (o.Applied? <==> env.hcnsManager.Some?)
    ensures a == Release ==> (o.Applied? <==> r.hasOfficialFile)
    ensures a != Submit && a != SendToHcns && a != Release ==> o.Applied?
    ensures o.Applied? ==> (o.record.state == TargetState(a) && o.record.hasDraftFile == r.hasDraftFile &&
      o.record.hasOfficialFile == r.hasOfficialFile)
    ensures o.Applied? && a != GenerateNumber ==>
      o.record.dispatchNumber == r.dispatchNumber && o.record.datePromulgated == r.datePromulgated
    ensures o.Applied? && a == GenerateNumber ==>
      o.record.dispatchNumber == FillNumber(r.dispatchNumber, env.drawn) && o.record.datePromulgated == Some(env.today)
  {
    match a
    case Submit => if !r.hasDraftFile then Refused(DraftFileRequired) else Applied(r.(state := WaitingApproval))
    case SendToHcns => if env.hcnsManager.None? then Refused(NoHcnsManager) else Applied(r.(state := ToPromulgate))
    case GenerateNumber =>
      Applied(r.(dispatchNumber := FillNumber(r.dispatchNumber, env.drawn), datePromulgated := Some(env.today),
                 state := Processing))
    case Release => if !r.hasOfficialFile then Refused(OfficialFileRequired) else Applied(r.(state := Released))
    case _ => Applied(r.(state := TargetState(a)))
  }

  /** One button press and the environment at that moment. */
  datatype Press = Press(action: OutgoingAction, env: Env)

  /** A series of presses; a refused one leaves the letter as it was. */
  function Run(r: Outgoing, presses: seq<Press>): Outgoing
    decreases |presses|
  {
    if presses == [] then r
    else
      var o := Apply(r, presses[0].action, presses[0].env);
      Run(if o.Applied? then o.record else r, presses[1..])
  }

  /** Once granted, the official number is never replaced. */
  lemma {:induction false} OfficialNumberStable(r: Outgoing, presses: seq<Press>)
    requires r.dispatchNumber != ""
    ensures Run(r, presses).dispatchNumber == r.dispatchNumber
    decreases |presses|
  {
    if presses != [] {
      var o := Apply(r, presses[0].action, presses[0].env);
      OfficialNumberStable(if o.Applied? then o.record else r, presses[1..]);
    }
  }

  /** The drafts and official files are never changed by the actions. */
  lemma {:induction false} RunKeepsFiles(r: Outgoing, presses: seq<Press>)
    ensures Run(r, presses).hasDraftFile == r.hasDraftFile && Run(r, presses).hasOfficialFile == r.hasOfficialFile
    decreases |presses|
  {
    if presses != [] {
      var o := Apply(r, presses[0].action, presses[0].env);
      RunKeepsFiles(if o.Applied? then o.record else r, presses[1..]);
    }
  }

  /** A letter only goes for approval with a draft file. */
  lemma {:induction false} ApprovalNeedsDraftFile(r: Outgoing, presses: seq<Press>)
    requires r.state != WaitingApproval
    requires Run(r, presses).state == WaitingApproval
    ensures r.hasDraftFile
    decreases |presses|
  {
    assert presses != [];
    var o := Apply(r, presses[0].action, presses[0].env);
    var next := if o.Applied? then o.record else r;
    if next.state != WaitingApproval {
      ApprovalNeedsDraftFile(next, presses[1..]);
    }
  }

  /** A letter is only released with an official file. */
  lemma {:induction false} ReleaseNeedsOfficialFile(r: Outgoing, presses: seq<Press>)
    requires r.state != Released
    requires Run(r, presses).state == Released
    ensures r.hasOfficialFile
    decreases |presses|
  {
    assert presses != [];
    var o := Apply(r, presses[0].action, presses[0].env);
    var next := if o.Applied? then o.record else r;
    if next.state != Released {
      ReleaseNeedsOfficialFile(next, presses[1..]);
    }
  }

  // ---------------------------------------------------------------------
  // The record
  // ---------------------------------------------------------------------

  /** The outcome an action method reports, and the record it leaves, agree with `Apply`. */
  predicate Matches(o: Outcome, err: Option<OutgoingError>, after: Outgoing, before: Outgoing) {
    (o.Applied? ==> err.None? && after == o.record) &&
    (o.Refused? ==> err == Some(o.error) && after == before)
  }

  class OutgoingDispatch {
    var name: string
    var subject: string
    var drafterId: nat
    var approverId: Option<nat>
    var state: OutgoingState
    var dispatchNumber: string
    var datePromulgated: Option<Day>
    var hasDraftFile: bool
    var hasOfficialFile: bool

    function Data(): Outgoing
      reads this
    {
      Outgoing(state, dispatchNumber, datePromulgated, hasDraftFile, hasOfficialFile)
    }

    /** A new draft letter. */
    constructor (name: string, subject: string, drafterId: nat, approverId: Option<nat>)
      ensures this.name == name && this.subject == subject && this.drafterId == drafterId && this.approverId == approverId
      ensures Data() == Outgoing(Draft, "", None, false, false)
    {
      this.name := name;
      this.subject := subject;
      this.drafterId := drafterId;
      this.approverId := approverId;
      state := Draft;
      dispatchNumber := "";
      datePromulgated := None;
      hasDraftFile := false;
      hasOfficialFile := false;
    }

    /** `action_submit`. */
    method ActionSubmit() returns (err: Option<OutgoingError>)
      modifies this`state
      ensures Matches(Apply(old(Data()), Submit, Env("", 0, None)), err, Data(), old(Data()))
    {
      if !hasDraftFile {
        return Some(DraftFileRequired);
      }
      state := WaitingApproval;
      err := None;
    }

    /** `action_approve`. */
    method ActionApprove()
      modifies this`state
      ensures Data() == Apply(old(Data()), Approve, Env("", 0, None)).record
    {
      state := Approved;
    }

    /** `action_reject`. */
    method ActionReject()
      modifies this`state
      ensures Data() == Apply(old(Data()), Reject, Env("", 0, None)).record
    {
      state := Draft;
    }

    /** `action_send_to_hcns`, given the manager the lookup found. */
    method ActionSendToHcns(hcnsManager: Option<nat>) returns (err: Option<OutgoingError>)
      modifies this`state
      ensures Matches(Apply(old(Data()), SendToHcns, Env("", 0, hcnsManager)), err, Data(), old(Data()))
    {
      if hcnsManager.None? {
        return Some(NoHcnsManager);
      }
      state := ToPromulgate;
      err := None;
    }

    /** `action_generate_number`. */
    method ActionGenerateNumber(drawn: string, today: Day)
      modifies this`state, this`dispatchNumber, this`datePromulgated
      ensures Data() == Apply(old(Data()), GenerateNumber, Env(drawn, today, None)).record
    {
      if dispatchNumber == "" {
        dispatchNumber := drawn;
      }
      datePromulgated := Some(today);
      state := Processing;
    }

    /** `action_release`. */
    method ActionRelease() returns (err: Option<OutgoingError>)
      modifies this`state
      ensures Matches(Apply(old(Data()), Release, Env("", 0, None)), err, Data(), old(Data()))
    {
      if !hasOfficialFile {
        return Some(OfficialFileRequired);
      }
      state := Released;
      err := None;
    }

    /** `action_send`. */
    method ActionSend()
      modifies this`state
      ensures Data() == Apply(old(Data()), Send, Env("", 0, None)).record
    {
      state := Sent;
    }

    /** `action_done`. */
    method ActionDone()
      modifies this`state
      ensures Data() == Apply(old(Data()), MarkDone, Env("", 0, None)).record
    {
      state := Done;
    }

    /** `action_cancel`. */
    method ActionCancel()
      modifies this`state
      ensures Data() == Apply(old(Data()), Cancel, Env("", 0, None)).record
    {
      state := Cancelled;
    }

    /** `action_draft`. */
    method ActionDraft()
      modifies this`state
      ensures Data() == Apply(old(Data()), ResetToDraft, Env("", 0, None)).record
    {
      state := Draft;
    }
  }

  /** `create`: a new draft letter with its draft system number. */
  method CreateOutgoing(givenName: Option<string>, drawn: string, subject: string, drafterId: nat,
                        approverId: Option<nat>) returns (d: OutgoingDispatch)
    ensures fresh(d) && d.name == SystemName(givenName, drawn) && d.subject == subject
    ensures d.drafterId == drafterId && d.approverId == approverId
    ensures d.Data() == Outgoing(Draft, "", None, false, false)
  {
    d := new OutgoingDispatch(SystemName(givenName, drawn), subject, drafterId, approverId);
  }
}
