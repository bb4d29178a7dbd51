/**
 * The digital-signature extension of the contract: the two default signers
 * a new request is prefilled with, the guard on creating a request and the
 * action that lists a contract's requests.
 */
module SignatureContract {
  import opened Common
  import opened SignatureSigner
  import opened SignatureRequest
  import CM = ContractManagement

  /** The values of one signer line to create (`(0, 0, vals)`). */
  datatype SignerVals = SignerVals(partner: Option<Partner>, role: Role, signerName: string,
                                   signerEmail: string, signOrder: int)

  /** The signer line for a partner; a missing partner has no name and no address. */
  function SignerLine(p: Option<Partner>, role: Role, order: int): (v: SignerVals)
    ensures v.partner == p && v.role == role && v.signOrder == order
    ensures v.signerName == (if p.Some? then p.value.name else "")
    ensures v.signerEmail == (if p.Some? then p.value.email else "")
  {
    SignerVals(p, role, if p.Some? then p.value.name else "", if p.Some? then p.value.email else "", order)
  }

  /**
   * `_prepare_default_signers`: the internal signer (the approver's partner,
   * or the current user's when no approver is set) and the external signer
   * (the contract's partner); under TRASAS-first the internal one signs
   * first, under any other flow the partner does.
   * `approverPartner` is None when the contract has no approver.
   */
  function PrepareDefaultSigners(flow: CM.SigningFlow, approverPartner: Option<Partner>,
                                 userPartner: Partner, contractPartner: Option<Partner>): (vs: seq<SignerVals>)
    ensures |vs| == 2 && vs[0].role == Internal && vs[1].role == External
    ensures vs[0].partner == (if approverPartner.Some? then approverPartner else Some(userPartner))
    ensures vs[1].partner == contractPartner
    ensures flow == CM.TrasasFirst ==> vs[0].signOrder == 1 && vs[1].signOrder == 2
    ensures flow != CM.TrasasFirst ==> vs[0].signOrder == 2 && vs[1].signOrder == 1
    ensures {vs[0].signOrder, vs[1].signOrder} == {1, 2}
  {
    var internal := if approverPartner.Some? then approverPartner else Some(userPartner);
    var internalOrder := if flow == CM.TrasasFirst then 1 else 2;
    [SignerLine(internal, Internal, internalOrder), SignerLine(contractPartner, External, 3 - internalOrder)]
  }

  /** The signers created from the lines, with consecutive ids, in record order (sign_order, id). */
  function CreatedSigners(vs: seq<SignerVals>, firstId: nat): (ss: seq<Signer>)
    requires |vs| == 2
  {
    var a := NewSigner(firstId, vs[0].role, vs[0].signerName, vs[0].signerEmail, vs[0].partner, Some(vs[0].signOrder));
    var b := NewSigner(firstId + 1, vs[1].role, vs[1].signerName, vs[1].signerEmail, vs[1].partner, Some(vs[1].signOrder));
    if vs[0].signOrder <= vs[1].signOrder then [a, b] else [b, a]
  }

  /**
   * Once the default signers exist, the first invitation goes to the
   * internal signer under TRASAS-first and to the partner otherwise, and the
   * other signer is not invited before the first has signed.
   */
  lemma DefaultSignersInviteByFlow(flow: CM.SigningFlow, approverPartner: Option<Partner>,
                                   userPartner: Partner, contractPartner: Option<Partner>, firstId: nat)
    ensures var ss := CreatedSigners(PrepareDefaultSigners(flow, approverPartner, userPartner, contractPartner), firstId);
      WellFormed(ss) &&
      NextToInvite(ss) == Some(0) &&
      ss[0].role == (if flow == CM.TrasasFirst then Internal else External) &&
      !PriorsSigned(ss, ss[1].signOrder)
  {
    var ss := CreatedSigners(PrepareDefaultSigners(flow, approverPartner, userPartner, contractPartner), firstId);
    assert ss[0].signOrder == 1 && ss[1].signOrder == 2;
    assert FirstWaiting(ss) == Some(0);
    assert !(ss[0].state == Signed);
  }

  datatype SignatureError = NotApprovedOrSigning

  datatype Result<T> = Success(value: T) | Failure(error: SignatureError)

  /** The form the create action opens, with its defaults. */
  datatype CreateRequestForm = CreateRequestForm(contractId: int, signingFlow: CM.SigningFlow,
                                                 deadline: Option<Day>, signers: seq<SignerVals>)

  /**
   * `action_create_signature_request`: only an approved contract or one
   * already being signed can get a signature request.
   */
  function CreateSignatureRequest(state: CM.ContractState, contractId: int, flow: CM.SigningFlow,
                                  signDeadline: Option<Day>, approverPartner: Option<Partner>,
                                  userPartner: Partner, contractPartner: Option<Partner>): (r: Result<CreateRequestForm>)
    ensures r.Success? <==> state == CM.Approved || state == CM.Signing
    ensures r.Success? ==> (r.value.contractId == contractId && r.value.signingFlow == flow &&
      r.value.deadline == signDeadline &&
      r.value.signers == PrepareDefaultSigners(flow, approverPartner, userPartner, contractPartner))
  {
    if state != CM.Approved && state != CM.Signing then Failure(NotApprovedOrSigning)
    else Success(CreateRequestForm(contractId, flow, signDeadline,
                                   PrepareDefaultSigners(flow, approverPartner, userPartner, contractPartner)))
  }

  datatype ViewMode = ListAndForm | FormOnly

  datatype RequestsAction = RequestsAction(viewMode: ViewMode, resId: Option<nat>, contractId: int)

  /**
   * `action_view_signature_requests`: a contract with exactly one request
   * opens that request's form; otherwise the list of its requests.
   */
  function ViewSignatureRequests(contractId: int, requestIds: seq<nat>): (a: RequestsAction)
    ensures a.contractId == contractId
    ensures a.viewMode == FormOnly <==> |requestIds| == 1
    ensures a.resId.Some? <==> |requestIds| == 1
    ensures |requestIds| == 1 ==> a.resId == Some(requestIds[0])
  {
    if |requestIds| == 1 then RequestsAction(FormOnly, Some(requestIds[0]), contractId)
    else RequestsAction(ListAndForm, None, contractId)
  }
}
