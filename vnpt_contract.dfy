/**
 * `vnpt.contract`: a contract signed first by the director through VNPT
 * SmartCA (remote hash signing, confirmed on the director's phone) and then
 * by the customer through the portal. This module holds the record, its PDF
 * helpers, the portal link, the send-to-customer guard and the cron that
 * polls SmartCA and embeds the director's signature.
 */
module VnptContract {
  import opened Common

  datatype VState = Draft | WaitingDirector | WaitingCustomer | Completed | Failed

  /** An `ir.attachment`: its name, its `raw` content and its base64 `datas` ("" when empty). */
  datatype Attachment = Attachment(name: string, raw: Bytes, datas: string)

  /** The PDF content of an attachment: `raw` when set, else the decoded `datas`, else nothing. */
  function PdfBytes(att: Option<Attachment>, decode: string -> Bytes): (b: Bytes)
    ensures att.None? ==> b == []
    ensures att.Some? && att.value.raw != [] ==> b == att.value.raw
    ensures att.Some? && att.value.raw == [] ==> b == (if att.value.datas != "" then decode(att.value.datas) else [])
    ensures b != [] ==> att.Some? && (att.value.raw != [] || att.value.datas != "")
  {
    if att.None? then []
    else if att.value.raw != [] then att.value.raw
    else if att.value.datas != "" then decode(att.value.datas)
    else []
  }

  const DefaultSigField: string := "DirectorSignature1"

  /** The signature field name, defaulting when the record has none. */
  function SigFieldName(field: string): (f: string)
    ensures f != ""
    ensures field != "" ==> f == field
  {
    if field != "" then field else DefaultSigField
  }

  /** The `smartca_*` fields of the director's SmartCA transaction. */
  datatype SmartcaTx = SmartcaTx(userId: string, serialNumber: string, transactionId: string, tranCode: string,
                                 docId: string, transactionDesc: string, timeStamp: string)

  const NoTx := SmartcaTx("", "", "", "", "", "", "")

  datatype ContractData = ContractData(
    id: nat,
    name: string,
    partnerEmail: string,
    state: VState,
    unsigned: Option<Attachment>,
    placeholder: Option<Attachment>,
    directorSigned: Option<Attachment>,
    tx: SmartcaTx,
    signatureValue: string,
    sigField: string)

  /** The file-name stem of generated PDFs: the unsigned PDF's name, or the contract's. */
  function BaseName(d: ContractData): string {
    if d.unsigned.Some? && d.unsigned.value.name != "" then d.unsigned.value.name else d.name
  }

  // ---------------------------------------------------------------------
  // Portal link and the mail to the customer
  // ---------------------------------------------------------------------

  /**
   * `_get_portal_url`: `base` is the stored `web.base.url`, if any; an unset
   * or empty value makes `get_param` give `False`, which the f-string
   * renders as `False`. `token` is the record's portal access token.
   */
  function PortalUrl(base: Option<string>, id: nat, token: string): (u: string)
    ensures var b := if base.Some? && base.value != "" then base.value else "False";
            u == b + "/my/contracts/" + NatToString(id) + "?access_token=" + token
  {
    (if base.Some? && base.value != "" then base.value else "False") + "/my/contracts/" + NatToString(id) +
    "?access_token=" + token
  }

  /** The digits of a number followed by a non-digit separator can be split off again. */
  lemma DigitsThenSeparator(m: nat, n: nat, sep: char, s: string, t: string)
    requires !IsDigit(sep)
    requires NatToString(m) + [sep] + s == NatToString(n) + [sep] + t
    ensures m == n && s == t
  {
    var a, b := NatToString(m), NatToString(n);
    var w := a + [sep] + s;
    assert w[|a|] == sep && forall k :: 0 <= k < |a| ==> IsDigit(w[k]);
    assert w[|b|] == sep && forall k :: 0 <= k < |b| ==> IsDigit(w[k]);
    assert |a| == |b|;
    assert a == w[..|a|] && b == w[..|b|];
    NatToStringInjective(m, n);
    assert s == w[|a| + 1..] && t == (b + [sep] + t)[|b| + 1..];
  }

  /** Two contracts never share a portal link, whatever their tokens. */
  lemma PortalUrlInjective(base: Option<string>, m: nat, n: nat, s: string, t: string)
    requires PortalUrl(base, m, s) == PortalUrl(base, n, t)
    ensures m == n && s == t
  {
    var p := (if base.Some? && base.value != "" then base.value else "False") + "/my/contracts/";
    var u := PortalUrl(base, m, s);
    assert u == p + (NatToString(m) + "?" + ("access_token=" + s));
    assert u == p + (NatToString(n) + "?" + ("access_token=" + t));
    assert u[|p|..] == NatToString(m) + "?" + ("access_token=" + s);
    assert u[|p|..] == NatToString(n) + "?" + ("access_token=" + t);
    DigitsThenSeparator(m, n, '?', "access_token=" + s, "access_token=" + t);
    assert s == ("access_token=" + s)[13..];
    assert t == ("access_token=" + t)[13..];
  }

  datatype SendError = NotWaitingCustomer | MissingCustomerEmail | MissingDirectorSignedPdf | TemplateNotFound

  /** The mail sent by the customer-signing template: recipient and portal link. */
  datatype SendResult = Mailed(to: string, portalUrl: string) | SendRefused(error: SendError)

  /**
   * `action_send_to_customer`: the four checks in their order, then the
   * mail carrying the portal link.
   */
  function SendToCustomer(d: ContractData, templateFound: bool, base: Option<string>, token: string): (r: SendResult)
    ensures r.Mailed? <==>
      d.state == WaitingCustomer && d.partnerEmail != "" && d.directorSigned.Some? && templateFound
    ensures r.Mailed? ==> r.to == d.partnerEmail && r.portalUrl == PortalUrl(base, d.id, token)
    ensures d.state != WaitingCustomer ==> r == SendRefused(NotWaitingCustomer)
    ensures d.state == WaitingCustomer && d.partnerEmail == "" ==> r == SendRefused(MissingCustomerEmail)
    ensures d.state == WaitingCustomer && d.partnerEmail != "" && d.directorSigned.None? ==>
      r == SendRefused(MissingDirectorSignedPdf)
  {
    if d.state != WaitingCustomer then SendRefused(NotWaitingCustomer)
    else if d.partnerEmail == "" then SendRefused(MissingCustomerEmail)
    else if d.directorSigned.None? then SendRefused(MissingDirectorSignedPdf)
    else if !templateFound then SendRefused(TemplateNotFound)
    else Mailed(d.partnerEmail, PortalUrl(base, d.id, token))
  }

  // ---------------------------------------------------------------------
  // Polling SmartCA for the director's signature
  // ---------------------------------------------------------------------

  /** One entry of `data.signatures`: its `doc_id` (if any) and `signature_value` ("" when missing). */
  datatype SigItem = SigItem(docId: Option<string>, signatureValue: string)

  /** SmartCA's answer to the status request; `StatusFailed` when the request raises. */
  datatype StatusReply = StatusFailed | StatusOk(signatures: seq<SigItem>)

  /** The PAdES embedding of a CMS into the placeholder PDF; it fails on invalid base64 or PDF errors. */
  datatype EmbedResult = Embedded(pdf: Bytes) | EmbedFailed

  predicate MatchesDoc(it: SigItem, docId: string) { it.docId == Some(docId) }

  /** The signature item for the contract: the first one for its `doc_id`, else the first one. */
  function ChooseSignature(sigs: seq<SigItem>, docId: string): (it: SigItem)
    requires sigs != []
    ensures it in sigs
    ensures docId != "" && (exists i :: 0 <= i < |sigs| && MatchesDoc(sigs[i], docId)) ==>
      MatchesDoc(it, docId) &&
      exists i :: 0 <= i < |sigs| && sigs[i] == it && forall j :: 0 <= j < i ==> !MatchesDoc(sigs[j], docId)
    ensures (docId == "" || forall i :: 0 <= i < |sigs| ==> !MatchesDoc(sigs[i], docId)) ==> it == sigs[0]
  {
    var k := if docId != "" then FirstWhere(sigs, (s: SigItem) => MatchesDoc(s, docId)) else None;
    if k.Some? then sigs[k.value] else sigs[0]
  }

  /** The director-signed attachment created from an embedded PDF. */
  function SignedAttachment(d: ContractData, pdf: Bytes): Attachment {
    Attachment(BaseName(d) + " (director-signed).pdf", pdf, "")
  }

  /** One contract after one round of the poll. */
  function Polled(d: ContractData, reply: StatusReply, decode: string -> Bytes,
                  embed: (Bytes, string, string) -> EmbedResult): ContractData
  {
    if reply.StatusFailed? then d.(state := Failed)
    else if reply.signatures == [] then d
    else
      var cms := ChooseSignature(reply.signatures, d.tx.docId).signatureValue;
      if cms == "" then d
      else
        var placeholder := PdfBytes(d.placeholder, decode);
        if placeholder == [] then d.(state := Failed)
        else
          var signed := embed(placeholder, cms, SigFieldName(d.sigField));
          if signed.EmbedFailed? then d.(state := Failed)
          else d.(directorSigned := Some(SignedAttachment(d, signed.pdf)), signatureValue := cms, state := WaitingCustomer)
  }

  /** A poll only moves a contract to `waiting_customer` or `failed`, or leaves it as it was. */
  lemma PolledOutcomes(d: ContractData, reply: StatusReply, decode: string -> Bytes,
                       embed: (Bytes, string, string) -> EmbedResult)
    ensures var r := Polled(d, reply, decode, embed);
            r == d || r == d.(state := Failed) ||
            (r.state == WaitingCustomer &&
             r == d.(directorSigned := r.directorSigned, signatureValue := r.signatureValue, state := WaitingCustomer))
  {
  }

  /**
   * The director's signature is stored exactly when SmartCA returned a
   * non-empty CMS for the chosen item, the placeholder PDF has content and
   * the embedding succeeded; the stored PDF is the embedded one.
   */
  lemma PolledSignsIff(d: ContractData, reply: StatusReply, decode: string -> Bytes,
                       embed: (Bytes, string, string) -> EmbedResult)
    requires d.state != WaitingCustomer
    ensures var r := Polled(d, reply, decode, embed);
            r.state == WaitingCustomer <==>
              reply.StatusOk? && reply.signatures != [] &&
              ChooseSignature(reply.signatures, d.tx.docId).signatureValue != "" &&
              PdfBytes(d.placeholder, decode) != [] &&
              embed(PdfBytes(d.placeholder, decode), ChooseSignature(reply.signatures, d.tx.docId).signatureValue,
                    SigFieldName(d.sigField)).Embedded?
    ensures var r := Polled(d, reply, decode, embed);
            r.state == WaitingCustomer ==>
              var cms := ChooseSignature(reply.signatures, d.tx.docId).signatureValue;
              r.signatureValue == cms &&
              r.directorSigned == Some(SignedAttachment(d, embed(PdfBytes(d.placeholder, decode), cms,
                                                                 SigFieldName(d.sigField)).pdf))
  {
  }

  /** A contract whose signature is still pending is left untouched. */
  lemma PendingLeavesContract(d: ContractData, reply: StatusReply, decode: string -> Bytes,
                              embed: (Bytes, string, string) -> EmbedResult)
    requires reply.StatusOk?
    requires reply.signatures == [] || ChooseSignature(reply.signatures, d.tx.docId).signatureValue == ""
    ensures Polled(d, reply, decode, embed) == d
  {
  }

  /** A missing placeholder, like any other error once a CMS is there, fails the contract. */
  lemma MissingPlaceholderFails(d: ContractData, reply: StatusReply, decode: string -> Bytes,
                                embed: (Bytes, string, string) -> EmbedResult)
    requires reply.StatusOk? && reply.signatures != []
    requires ChooseSignature(reply.signatures, d.tx.docId).signatureValue != ""
    requires PdfBytes(d.placeholder, decode) == []
    ensures Polled(d, reply, decode, embed) == d.(state := Failed)
  {
  }

  // ---------------------------------------------------------------------
  // The contract record
  // ---------------------------------------------------------------------

  class Contract {
    var id: nat
    var name: string
    var partnerEmail: string
    var state: VState
    var unsigned: Option<Attachment>
    var placeholder: Option<Attachment>
    var directorSigned: Option<Attachment>
    var tx: SmartcaTx
    var signatureValue: string
    var sigField: string

    function Data(): ContractData
      reads this
    {
      ContractData(id, name, partnerEmail, state, unsigned, placeholder, directorSigned, tx, signatureValue, sigField)
    }

    /** A new contract: `draft`, with the default signature field name. */
    constructor (id: nat, name: string, partnerEmail: string, unsigned: Option<Attachment>)
      ensures Data() == ContractData(id, name, partnerEmail, Draft, unsigned, None, None, NoTx, "", DefaultSigField)
    {
      this.id, this.name, this.partnerEmail, this.state, this.unsigned := id, name, partnerEmail, Draft, unsigned;
      placeholder, directorSigned := None, None;
      tx, signatureValue := NoTx, "";
      sigField := DefaultSigField;
    }

    /** The write that leaves the contract waiting for the director on a SmartCA transaction. */
    method WriteDirectorRequest(t: SmartcaTx, placeholderPdf: Attachment)
      modifies this
      ensures Data() == old(Data()).(state := WaitingDirector, tx := t, placeholder := Some(placeholderPdf))
    {
      state, tx, placeholder := WaitingDirector, t, Some(placeholderPdf);
    }

    /** The body of the poll loop for this contract; any raised error marks it `failed`. */
    method Poll(reply: StatusReply, decode: string -> Bytes, embed: (Bytes, string, string) -> EmbedResult)
      modifies this
      ensures Data() == Polled(old(Data()), reply, decode, embed)
    {
      if reply.StatusFailed? {
        state := Failed;
        return;
      }
      var sigs := reply.signatures;
      if sigs == [] {
        return;
      }
      var item: Option<SigItem> := None;
      var docId := tx.docId;
      if docId != "" {
        var i := 0;
        while i < |sigs|
          invariant 0 <= i <= |sigs|
          invariant forall j :: 0 <= j < i ==> !MatchesDoc(sigs[j], docId)
        {
          if sigs[i].docId == Some(docId) {
            item := Some(sigs[i]);
            break;
          }
          i := i + 1;
        }
      }
      var chosen := if item.Some? then item.value else sigs[0];
      assert chosen == ChooseSignature(sigs, docId);
      var cms := chosen.signatureValue;
      if cms == "" {
        return;
      }
      var pdf := PdfBytes(placeholder, decode);
      if pdf == [] {
        state := Failed;
        return;
      }
      var signed := embed(pdf, cms, SigFieldName(sigField));
      if signed.EmbedFailed? {
        state := Failed;
        return;
      }
      directorSigned := Some(SignedAttachment(Data(), signed.pdf));
      signatureValue := cms;
      state := WaitingCustomer;
    }
  }

  /** The cron's search: `waiting_director` with a transaction id. */
  predicate Polling(d: ContractData) {
    d.state == WaitingDirector && d.tx.transactionId != ""
  }

  /** The positions of the contracts the search matches, in id order. */
  function PollingIndices(ds: seq<ContractData>): (r: seq<nat>)
    ensures forall k :: 0 <= k < |r| ==> r[k] < |ds| && Polling(ds[r[k]])
    ensures forall i :: 0 <= i < |ds| && Polling(ds[i]) ==> i in r
    ensures forall k, l :: 0 <= k < l < |r| ==> r[k] < r[l]
    decreases |ds|
  {
    if ds == [] then []
    else
      var init := PollingIndices(ds[..|ds| - 1]);
      assert forall i :: 0 <= i < |ds| - 1 ==> ds[..|ds| - 1][i] == ds[i];
      if Polling(ds[|ds| - 1]) then init + [|ds| - 1] else init
  }

  /** `vnpt_smartca.poll_limit`, 50 when unset; a zero limit puts no bound on the search. */
  function PollLimit(param: Option<nat>): nat {
    if param.Some? then param.value else 50
  }

  /** The contracts one cron run polls: the first `limit` matches, or all of them for a zero limit. */
  function Selected(ds: seq<ContractData>, limit: nat): (sel: seq<nat>)
    ensures forall k :: 0 <= k < |sel| ==> sel[k] < |ds| && Polling(ds[sel[k]])
    ensures forall k, l :: 0 <= k < l < |sel| ==> sel[k] < sel[l]
    ensures limit > 0 ==> |sel| <= limit
    ensures limit == 0 || |sel| < limit ==> forall i :: 0 <= i < |ds| && Polling(ds[i]) ==> i in sel
    ensures forall k, i :: 0 <= k < |sel| && 0 <= i < sel[k] && Polling(ds[i]) ==> i in sel
  {
    var all := PollingIndices(ds);
    if limit == 0 || |all| <= limit then all
    else
      var sel := all[..limit];
      forall k, i | 0 <= k < |sel| && 0 <= i < sel[k] && Polling(ds[i]) ensures i in sel {
        var m :| 0 <= m < |all| && all[m] == i;
      }
      sel
  }

  /** The records' current values, in order. */
  function DataOf(cs: seq<Contract>): (ds: seq<ContractData>)
    reads set c | c in cs
    ensures |ds| == |cs|
    decreases |cs|
  {
    if cs == [] then [] else DataOf(cs[..|cs| - 1]) + [cs[|cs| - 1].Data()]
  }

  /** Each value is the matching record's. */
  lemma {:induction false} DataOfAt(cs: seq<Contract>)
    ensures forall j :: 0 <= j < |cs| ==> DataOf(cs)[j] == cs[j].Data()
    decreases |cs|
  {
    if cs != [] {
      DataOfAt(cs[..|cs| - 1]);
    }
  }

  /** What one cron run makes of each contract. */
  function AfterPoll(before: seq<ContractData>, j: nat, sel: seq<nat>, status: string -> StatusReply,
                     decode: string -> Bytes, embed: (Bytes, string, string) -> EmbedResult): ContractData
    requires j < |before|
  {
    if j in sel then Polled(before[j], status(before[j].tx.transactionId), decode, embed) else before[j]
  }

  /**
   * `_cron_poll_smartca_director` over the contracts in id order. `status`
   * is SmartCA's answer per transaction id; `configured` says whether the
   * SmartCA client can be built, which is only tried when something is
   * to be polled. A contract the search does not select is not touched.
   */
  method CronPollDirector(cs: seq<Contract>, limitParam: Option<nat>, configured: bool,
                          status: string -> StatusReply, decode: string -> Bytes,
                          embed: (Bytes, string, string) -> EmbedResult)
    returns (ok: bool)
    requires forall i, j :: 0 <= i < j < |cs| ==> cs[i] != cs[j]
    modifies set c | c in cs
    ensures var sel := Selected(old(DataOf(cs)), PollLimit(limitParam));
            ok <==> sel == [] || configured
    ensures var sel := Selected(old(DataOf(cs)), PollLimit(limitParam));
            forall j :: 0 <= j < |cs| ==>
              cs[j].Data() == if ok then AfterPoll(old(DataOf(cs)), j, sel, status, decode, embed) else old(cs[j].Data())
  {
    ghost var before := DataOf(cs);
    DataOfAt(cs);
    var sel := Selected(DataOf(cs), PollLimit(limitParam));
    if sel == [] {
      return true;
    }
    if !configured {
      return false;
    }
    PollSelected(cs, sel, status, decode, embed);
    return true;
  }

  /** Polls the contracts at the indices `sel`, in order; the others keep their values. */
  method PollSelected(cs: seq<Contract>, sel: seq<nat>, status: string -> StatusReply, decode: string -> Bytes,
                      embed: (Bytes, string, string) -> EmbedResult)
    requires forall i, j :: 0 <= i < j < |cs| ==> cs[i] != cs[j]
    requires forall k :: 0 <= k < |sel| ==> sel[k] < |cs|
    requires forall k, l :: 0 <= k < l < |sel| ==> sel[k] < sel[l]
    modifies set c | c in cs
    ensures forall j :: 0 <= j < |cs| ==>
              cs[j].Data() == AfterPoll(old(DataOf(cs)), j, sel, status, decode, embed)
  {
    ghost var before := DataOf(cs);
    DataOfAt(cs);
    var k := 0;
    ghost var done: set<nat> := {};
    while k < |sel|
      invariant 0 <= k <= |sel|
      invariant done == set i | 0 <= i < k :: sel[i]
      invariant forall j :: 0 <= j < |cs| ==>
        cs[j].Data() == if j in done then Polled(before[j], status(before[j].tx.transactionId), decode, embed)
                        else before[j]
    {
      var j := sel[k];
      assert j !in done;
      PollAt(cs, j, status(cs[j].tx.transactionId), decode, embed);
      done := done + {j};
      k := k + 1;
    }
    assert forall j :: j in done <==> j in sel;
  }

  /** One selected contract is polled; every other record keeps its values. */
  method PollAt(cs: seq<Contract>, j: nat, reply: StatusReply, decode: string -> Bytes,
                embed: (Bytes, string, string) -> EmbedResult)
    requires j < |cs|
    requires forall i, l :: 0 <= i < l < |cs| ==> cs[i] != cs[l]
    modifies cs[j]
    ensures cs[j].Data() == Polled(old(cs[j].Data()), reply, decode, embed)
    ensures forall i :: 0 <= i < |cs| && i != j ==> cs[i].Data() == old(cs[i].Data())
  {
    cs[j].Poll(reply, decode, embed);
  }
}
