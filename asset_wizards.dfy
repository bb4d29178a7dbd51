/**
 * The two asset wizards: reuse (a new contract for an asset whose lease
 * ended, back to draft) and renew (a new lease period, back to leased).
 * Both record one contract-history line.
 */
module AssetWizards {
  import opened Common
  import opened AssetManagement

  /** A `trasas.asset.contract.history` line; an empty attachment list stands for no attachments. */
  datatype ContractHistory = ContractHistory(assetId: nat, signDate: Option<Day>, startDate: Day,
                                             endDate: Day, attachmentIds: seq<nat>, note: string)

  /** The context the wizard is opened from. */
  datatype Context = Context(activeId: Option<nat>, activeModel: string)

  /** The fields the reuse wizard's `default_get` fills. */
  datatype ReuseDefaults = ReuseDefaults(assetId: Option<nat>, departmentId: Option<nat>)

  /**
   * `default_get` of the reuse wizard: opened from an asset, the asset and
   * its department. `activeDepartment` is the department of the active
   * asset.
   */
  function ReuseDefaultGet(ctx: Context, activeDepartment: Option<nat>): (d: ReuseDefaults)
    ensures d.assetId.Some? <==> ctx.activeId.Some? && ctx.activeModel == "trasas.asset"
    ensures d.assetId.Some? ==> d.assetId == ctx.activeId && d.departmentId == activeDepartment
    ensures d.assetId.None? ==> d.departmentId.None?
  {
    if ctx.activeId.Some? && ctx.activeModel == "trasas.asset" then ReuseDefaults(ctx.activeId, activeDepartment)
    else ReuseDefaults(None, None)
  }

  /** `default_get` of the renew wizard: opened from an asset, that asset. */
  function RenewDefaultGet(ctx: Context): (assetId: Option<nat>)
    ensures assetId.Some? <==> ctx.activeId.Some? && ctx.activeModel == "trasas.asset"
    ensures assetId.Some? ==> assetId == ctx.activeId
  {
    if ctx.activeId.Some? && ctx.activeModel == "trasas.asset" then ctx.activeId else None
  }

  /** The reuse wizard's form. */
  datatype ReuseWizard = ReuseWizard(partnerId: Option<nat>, departmentId: Option<nat>, signDate: Option<Day>,
                                     startDate: Day, endDate: Day, attachmentIds: seq<nat>, note: string)

  /** The renew wizard's form. */
  datatype RenewWizard = RenewWizard(signDate: Option<Day>, startDate: Day, endDate: Day,
                                     attachmentIds: seq<nat>, note: string)

  datatype WizardError = EndBeforeStart

  datatype Result<T> = Success(value: T) | Failure(error: WizardError)

  /**
   * `action_confirm_reuse`: with an end before the start nothing happens;
   * otherwise it returns the history line it creates and writes the asset
   * back to draft, taking the wizard's partner as supplier and the wizard's
   * department only when they are given.
   */
  method ConfirmReuse(asset: Asset, w: ReuseWizard, stages: seq<Stage>) returns (r: Result<ContractHistory>)
    modifies asset`state, asset`stageId, asset`supplierId, asset`departmentId
    ensures r.Failure? <==> w.endDate < w.startDate
    ensures r.Failure? ==> unchanged(asset)
    ensures r.Success? ==> r.value == ContractHistory(asset.id, w.signDate, w.startDate, w.endDate, w.attachmentIds, w.note)
    ensures r.Success? ==> asset.state == Draft && asset.stageId == SyncedStage(stages, Draft, old(asset.stageId))
    ensures r.Success? ==> asset.supplierId == (if w.partnerId.Some? then w.partnerId else old(asset.supplierId))
    ensures r.Success? ==> asset.departmentId == (if w.departmentId.Some? then w.departmentId else old(asset.departmentId))
  {
    if w.endDate < w.startDate {
      return Failure(EndBeforeStart);
    }
    var history := ContractHistory(asset.id, w.signDate, w.startDate, w.endDate, w.attachmentIds, w.note);
    if w.partnerId.Some? {
      asset.supplierId := w.partnerId;
    }
    if w.departmentId.Some? {
      asset.departmentId := w.departmentId;
    }
    asset.WriteState(Draft, stages);
    r := Success(history);
  }

  /**
   * `action_confirm_renew`: with an end before the start nothing happens;
   * otherwise it returns the history line it creates and the asset is
   * leased again, whatever its state was.
   */
  method ConfirmRenew(asset: Asset, w: RenewWizard, stages: seq<Stage>) returns (r: Result<ContractHistory>)
    modifies asset`state, asset`stageId
    ensures r.Failure? <==> w.endDate < w.startDate
    ensures r.Failure? ==> unchanged(asset)
    ensures r.Success? ==> r.value == ContractHistory(asset.id, w.signDate, w.startDate, w.endDate, w.attachmentIds, w.note)
    ensures r.Success? ==> asset.state == Leased && asset.stageId == SyncedStage(stages, Leased, old(asset.stageId))
  {
    if w.endDate < w.startDate {
      return Failure(EndBeforeStart);
    }
    var history := ContractHistory(asset.id, w.signDate, w.startDate, w.endDate, w.attachmentIds, w.note);
    asset.WriteState(Leased, stages);
    r := Success(history);
  }
}
