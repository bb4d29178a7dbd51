/**
 * The public endpoints of the digital-signature module: the provider
 * callback (POST with a JSON body) and the demo signing link (GET). Both find
 * the request by its callback token; only the callback skips finalized
 * requests.
 */
module SignatureWebhook {
  import opened Common
  import opened SignatureSigner
  import opened SignatureRequest

  /** `search([("callback_token", "=", token)], limit=1)`: the first request, in search order, with that token. */
  function FindByToken(requests: seq<Request>, token: string): (k: Option<nat>)
    reads set r | r in requests
    ensures k.Some? ==> k.value < |requests| && requests[k.value].callbackToken == token
    ensures k.Some? ==> forall i :: 0 <= i < k.value ==> requests[i].callbackToken != token
    ensures k.None? ==> forall i :: 0 <= i < |requests| ==> requests[i].callbackToken != token
    decreases |requests|
  {
    if requests == [] then None
    else if requests[0].callbackToken == token then Some(0)
    else match FindByToken(requests[1..], token)
      case None => None
      case Some(j) => Some(j + 1)
  }

  /** A completed, cancelled or expired request takes no more callbacks. */
  predicate Finalized(st: RequestState) {
    st == Completed || st == Cancelled || st == RequestExpired
  }

  /** The JSON body: parsed into an object with its `signer_id`, or not an object at all. */
  datatype Body = JsonObject(signerId: SignerIdField) | NotJsonObject

  /**
   * The `signer_id` that `_process_callback` acts on: `if signer_id:` treats
   * a JSON 0 as absent, and record ids start at 1, so an id of 0 never
   * names a signer and counts as absent.
   */
  function CallbackSignerId(f: SignerIdField): (r: SignerIdField)
    ensures r.NoSignerId? <==> f.NoSignerId? || f == SignerIdValue(0)
    ensures r.SignerIdValue? ==> r == f && r.value != 0
    ensures r.NotAnInteger? <==> f.NotAnInteger?
  {
    if f == SignerIdValue(0) then NoSignerId else f
  }

  /** The JSON replies of the callback route. */
  datatype CallbackReply = InvalidToken404 | AlreadyFinalized | CallbackOk | InternalError500

  /**
   * `signature_callback` as written. The route is declared `type="http"`,
   * whose request object has no `jsonrequest` attribute, so reading the
   * payload raises inside the `try` for every request that passes the two
   * gates: the reply is the 500 error and `_process_callback` never runs.
   */
  method SignatureCallbackAsWritten(requests: seq<Request>, token: string, body: Body, env: Env)
    returns (reply: CallbackReply)
    ensures var k := FindByToken(requests, token);
      (k.None? <==> reply == InvalidToken404) &&
      (k.Some? && Finalized(requests[k.value].state) <==> reply == AlreadyFinalized) &&
      (k.Some? && !Finalized(requests[k.value].state) <==> reply == InternalError500)
    ensures reply != CallbackOk
  {
    var k := FindByToken(requests, token);
    if k.None? {
      return InvalidToken404;
    }
    if Finalized(requests[k.value].state) {
      return AlreadyFinalized;
    }
    return InternalError500;
  }

  /**
   * `_process_callback` on the request `req` found among `requests`: whether
   * it finished without raising, and what it left behind. No other request
   * changes, and so neither does any contract but `req`'s.
   */
  method CallbackOn(requests: seq<Request>, req: Request, signerId: SignerIdField, env: Env) returns (done: bool)
    requires req in requests
    requires forall r :: r in requests ==> r.Valid()
    modifies req, req.contract
    ensures forall r :: r in requests ==> r.Valid()
    ensures done == (if req.providerType == "demo" then !signerId.NotAnInteger? else !old(InProgress(req.state)))
    ensures req.CallbackApplied(signerId, env)
  {
    var outcome := req.ProcessCallback(signerId, env);
    assert forall r :: r in requests && r != req ==> r.Valid() by {
      forall r | r in requests && r != req ensures r.Valid() {
        assert old(r.Valid());
      }
    }
    done := outcome.Done?;
  }

  /**
   * `signature_callback` as intended: the JSON payload is read and handed
   * to the request's `_process_callback` (a zero `signer_id` counting as
   * absent), whose raise becomes a 500 reply;
   * so does a body that is not a JSON object. Only the request found by
   * the token, and its contract, may change.
   */
  method SignatureCallback(requests: seq<Request>, token: string, body: Body, env: Env) returns (reply: CallbackReply)
    requires forall r :: r in requests ==> r.Valid()
    modifies set r | r in requests, set r | r in requests :: r.contract
    ensures forall r :: r in requests ==> r.Valid()
    ensures var k := old(FindByToken(requests, token));
      (k.None? ==> reply == InvalidToken404) &&
      (k.Some? && old(Finalized(requests[k.value].state)) ==> reply == AlreadyFinalized) &&
      (k.Some? && !old(Finalized(requests[k.value].state)) && body.NotJsonObject? ==> reply == InternalError500)
    ensures var k := old(FindByToken(requests, token));
      k.None? || old(Finalized(requests[k.value].state)) || body.NotJsonObject? ==>
        forall r :: r in requests ==> unchanged(r) && unchanged(r.contract)
    ensures var k := old(FindByToken(requests, token));
      k.Some? && !old(Finalized(requests[k.value].state)) && body.JsonObject? ==>
        var req := requests[k.value];
        reply == (if req.providerType == "demo" then
                    (if body.signerId.NotAnInteger? then InternalError500 else CallbackOk)
                  else if old(InProgress(req.state)) then InternalError500
                  else CallbackOk) &&
        req.CallbackApplied(CallbackSignerId(body.signerId), env) &&
        forall r :: r in requests && r != req ==> unchanged(r) && (r.contract != req.contract ==> unchanged(r.contract))
  {
    var k := FindByToken(requests, token);
    if k.None? {
      return InvalidToken404;
    }
    var req := requests[k.value];
    if Finalized(req.state) {
      return AlreadyFinalized;
    }
    match body
    case NotJsonObject =>
      return InternalError500;
    case JsonObject(signerId) =>
      var done := CallbackOn(requests, req, CallbackSignerId(signerId), env);
      reply := if done then CallbackOk else InternalError500;
  }

  /** The HTML pages of the demo route; a raise inside the request gives Odoo's error page. */
  datatype DemoPage = UnknownRequest | InvalidSigner | AlreadySignedPage | SignedPage(signerName: string) | ErrorPage

  /**
   * What the demo route decides from the request's signers alone: the
   * request state is not one of its inputs.
   */
  datatype DemoStep = NoRequest | NoSuchSigner | SignedBefore | SignNow(index: nat)

  function DemoDecision(found: Option<seq<Signer>>, signerId: nat): (d: DemoStep)
    ensures d.SignNow? ==> (found.Some? && d.index < |found.value| &&
      found.value[d.index].id == signerId && found.value[d.index].state != Signed)
    ensures found.None? <==> d == NoRequest
    ensures d == NoSuchSigner <==> found.Some? && forall i :: 0 <= i < |found.value| ==> found.value[i].id != signerId
  {
    match found
    case None => NoRequest
    case Some(ss) =>
      match FindId(ss, signerId)
      case None => NoSuchSigner
      case Some(j) => if ss[j].state == Signed then SignedBefore else SignNow(j)
  }

  /**
   * `signature_demo_sign`. Routing only accepts digits, so the signer id is
   * a natural number; a zero id is falsy for `_process_callback`.
   */
  method SignatureDemoSign(requests: seq<Request>, token: string, signerId: nat, env: Env) returns (page: DemoPage)
    requires forall r :: r in requests ==> r.Valid()
    modifies set r | r in requests, set r | r in requests :: r.contract
    ensures forall r :: r in requests ==> r.Valid()
    ensures var k := old(FindByToken(requests, token));
      var d := DemoDecision(if k.Some? then Some(old(requests[k.value].signers)) else None, signerId);
      (d == NoRequest ==> page == UnknownRequest) &&
      (d == NoSuchSigner ==> page == InvalidSigner) &&
      (d == SignedBefore ==> page == AlreadySignedPage) &&
      (!d.SignNow? ==> forall r :: r in requests ==> unchanged(r) && unchanged(r.contract))
    ensures var k := old(FindByToken(requests, token));
      var d := DemoDecision(if k.Some? then Some(old(requests[k.value].signers)) else None, signerId);
      d.SignNow? ==>
        var req := requests[k.value];
        page == (if req.providerType != "demo" && old(InProgress(req.state)) then ErrorPage
                 else SignedPage(old(req.signers[d.index].signerName))) &&
        req.CallbackApplied(if signerId == 0 then NoSignerId else SignerIdValue(signerId), env) &&
        forall r :: r in requests && r != req ==> unchanged(r) && (r.contract != req.contract ==> unchanged(r.contract))
    ensures var k := old(FindByToken(requests, token));
      var d := DemoDecision(if k.Some? then Some(old(requests[k.value].signers)) else None, signerId);
      d.SignNow? && requests[k.value].providerType == "demo" && signerId != 0 ==>
        var req := requests[k.value];
        var q := DemoSign(old(req.Snapshot()), d.index, env.now, req.hasInviteTemplate);
        req.signers == q.signers && req.invitations == q.invitations
  {
    var k := FindByToken(requests, token);
    if k.None? {
      return UnknownRequest;
    }
    var req := requests[k.value];
    var j := FindId(req.signers, signerId);
    if j.None? {
      return InvalidSigner;
    }
    if req.signers[j.value].state == Signed {
      return AlreadySignedPage;
    }
    var name := req.signers[j.value].signerName;
    var field := if signerId == 0 then NoSignerId else SignerIdValue(signerId);
    var done := CallbackOn(requests, req, field, env);
    page := if done then SignedPage(name) else ErrorPage;
  }
}
