/**
 * The wizard that asks for the reason of a rejection and then sends the
 * contract back to draft.
 */
module ContractRejectWizard {
  import opened ContractManagement

  /**
   * `action_confirm_reject`: an empty reason is refused before anything is
   * written; otherwise the contract goes back to draft with the reason, its
   * activities are closed and its creator gets one activity due today. The
   * wizard itself does not check that the contract is waiting for approval.
   */
  method ConfirmReject(c: Contract, reason: string, today: int) returns (r: Status)
    requires c.Valid()
    modifies c`state, c`rejectionReason, c`activities
    ensures c.Valid()
    ensures r == if reason == "" then Err(EmptyReason) else Ok
    ensures r.Err? ==> unchanged(c)
    ensures r.Ok? ==> (c.state == Draft && c.rejectionReason == reason &&
      c.activities == ScheduleFor(c.userId, today, FixRejected))
  {
    if reason == "" {
      return Err(EmptyReason);
    }
    c.ConfirmRejection(reason, today);
    r := Ok;
  }
}
