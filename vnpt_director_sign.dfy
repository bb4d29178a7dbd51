/**
 * `vnpt.director.sign.wizard`: prepares the director's PAdES placeholder,
 * sends the hash of its to-be-signed bytes to VNPT SmartCA and leaves the
 * contract `waiting_director` for the poll cron.
 */
module VnptDirectorSign {
  import opened Common
  import opened VnptContract

  // ---------------------------------------------------------------------
  // `action_autofill`
  // ---------------------------------------------------------------------

  /** The UTC clock reading, by its calendar fields. */
  datatype UtcTime = UtcTime(year: nat, month: nat, day: nat, hour: nat, minute: nat, second: nat)

  /** A reading the clock can give, with a four-digit year. */
  predicate ValidTime(t: UtcTime) {
    1000 <= t.year <= 9999 && 1 <= t.month <= 12 && 1 <= t.day <= 31 &&
    t.hour < 24 && t.minute < 60 && t.second < 60
  }

  /** Appending two digits multiplies the value so far by a hundred. */
  lemma DigitsValueAppend2(x: string, y: string)
    requires AllDigits(x) && AllDigits(y) && |y| == 2
    ensures AllDigits(x + y) && DigitsValue(x + y) == DigitsValue(x) * 100 + DigitsValue(y)
  {
    var w := x + y;
    var x1 := x + [y[0]];
    assert w[..|w| - 1] == x1 && w[|w| - 1] == y[1];
    assert x1[..|x1| - 1] == x && x1[|x1| - 1] == y[0];
    assert DigitsValue(x1) == DigitsValue(x) * 10 + DigitValue(y[0]);
    assert DigitsValue(w) == DigitsValue(x1) * 10 + DigitValue(y[1]);
    assert y[..1] == [y[0]] && [y[0]][..0] == [];
    assert DigitsValue([y[0]]) == DigitValue(y[0]);
    assert DigitsValue(y) == DigitsValue([y[0]]) * 10 + DigitValue(y[1]);
  }

  /** A number below 100 as two decimal digits. */
  function Digits2(n: nat): (s: string)
    requires n < 100
    ensures |s| == 2 && AllDigits(s) && DigitsValue(s) == n
  {
    var a, b := DigitChar(n / 10), DigitChar(n % 10);
    assert [a, b][..1] == [a] && [a][..0] == [];
    assert DigitsValue([a]) == DigitValue(a);
    assert DigitsValue([a, b]) == DigitsValue([a]) * 10 + DigitValue(b);
    [a, b]
  }

  /** A number below 10000 as four decimal digits. */
  function Digits4(n: nat): (s: string)
    requires n < 10000
    ensures |s| == 4 && AllDigits(s) && DigitsValue(s) == n
  {
    DigitsValueAppend2(Digits2(n / 100), Digits2(n % 100));
    Digits2(n / 100) + Digits2(n % 100)
  }

  /** `strftime("%Y%m%d%H%M%SZ")`. */
  function TimeStamp(t: UtcTime): (s: string)
    requires ValidTime(t)
    ensures |s| == 15 && s[14] == 'Z'
  {
    Digits4(t.year) + Digits2(t.month) + Digits2(t.day) + Digits2(t.hour) + Digits2(t.minute) +
    Digits2(t.second) + "Z"
  }

  /** Every field of a time stamp reads back from its digits. */
  lemma TimeStampFields(t: UtcTime)
    requires ValidTime(t)
    ensures var s := TimeStamp(t);
            AllDigits(s[..4]) && DigitsValue(s[..4]) == t.year &&
            AllDigits(s[4..6]) && DigitsValue(s[4..6]) == t.month &&
            AllDigits(s[6..8]) && DigitsValue(s[6..8]) == t.day &&
            AllDigits(s[8..10]) && DigitsValue(s[8..10]) == t.hour &&
            AllDigits(s[10..12]) && DigitsValue(s[10..12]) == t.minute &&
            AllDigits(s[12..14]) && DigitsValue(s[12..14]) == t.second
  {
    var s := TimeStamp(t);
    assert s[..4] == Digits4(t.year);
    assert s[4..6] == Digits2(t.month);
    assert s[6..8] == Digits2(t.day);
    assert s[8..10] == Digits2(t.hour);
    assert s[10..12] == Digits2(t.minute);
    assert s[12..14] == Digits2(t.second);
  }

  /** Distinct clock readings give distinct time stamps. */
  lemma TimeStampInjective(t: UtcTime, u: UtcTime)
    requires ValidTime(t) && ValidTime(u) && TimeStamp(t) == TimeStamp(u)
    ensures t == u
  {
    TimeStampFields(t);
    TimeStampFields(u);
  }

  /** The `doc_id` shown on the SmartCA app: the contract id and a random tag. */
  function DocId(contractId: nat, tag: string): (s: string)
    ensures StartsWith(s, "DOC-")
  {
    "DOC-" + NatToString(contractId) + "-" + tag
  }

  /** The contract id and the tag can be read back from a `doc_id`. */
  lemma DocIdInjective(m: nat, n: nat, x: string, y: string)
    requires DocId(m, x) == DocId(n, y)
    ensures m == n && x == y
  {
    var s := DocId(m, x);
    assert s[4..] == NatToString(m) + "-" + x;
    assert s[4..] == NatToString(n) + "-" + y;
    DigitsThenSeparator(m, n, '-', x, y);
  }

  function TransactionDesc(contractName: string, partnerName: string): string {
    "Ky hop dong " + contractName + " - " + partnerName
  }

  // ---------------------------------------------------------------------
  // `action_send`
  // ---------------------------------------------------------------------

  /** The digit of a nibble in upper-case hexadecimal. */
  function HexChar(d: nat): (c: char)
    requires d < 16
    ensures IsHexUpper(c) && HexValue(c) == d
  {
    if d < 10 then ('0' as int + d) as char else ('A' as int + d - 10) as char
  }

  predicate IsHexUpper(c: char) { '0' <= c <= '9' || 'A' <= c <= 'F' }

  function HexValue(c: char): nat
    requires IsHexUpper(c)
  {
    if c <= '9' then c as int - '0' as int else c as int - 'A' as int + 10
  }

  /** `hexdigest().upper()`: two upper-case hex digits per byte, high nibble first. */
  function HexUpper(bs: Bytes): (h: string)
    ensures |h| == 2 * |bs|
    ensures forall i :: 0 <= i < |bs| ==> h[2 * i] == HexChar(bs[i] as int / 16) && h[2 * i + 1] == HexChar(bs[i] as int % 16)
  {
    seq(2 * |bs|, i requires 0 <= i < 2 * |bs| =>
      if i % 2 == 0 then HexChar(bs[i / 2] as int / 16) else HexChar(bs[i / 2] as int % 16))
  }

  /** Every character of a hash is an upper-case hexadecimal digit, and each pair reads back as its byte. */
  lemma HexUpperDigits(bs: Bytes)
    ensures var h := HexUpper(bs);
            (forall i :: 0 <= i < |h| ==> IsHexUpper(h[i])) &&
            forall i :: 0 <= i < |bs| ==> HexValue(h[2 * i]) * 16 + HexValue(h[2 * i + 1]) == bs[i] as int
  {
    var h := HexUpper(bs);
    forall i | 0 <= i < |h| ensures IsHexUpper(h[i]) {
      var j := i / 2;
      assert i == 2 * j || i == 2 * j + 1;
    }
  }

  /** Different digests are never sent as the same hash. */
  lemma HexUpperInjective(a: Bytes, b: Bytes)
    requires HexUpper(a) == HexUpper(b)
    ensures a == b
  {
    HexUpperDigits(a);
    HexUpperDigits(b);
    assert |a| == |b|;
    forall i | 0 <= i < |a| ensures a[i] == b[i] {
      assert a[i] as int == b[i] as int;
    }
  }

  /** The placeholder PDF and the bytes to sign, from the PAdES preparation. */
  datatype PrepareResult = Prepared(placeholderPdf: Bytes, bytesToSign: Bytes) | PrepareFailed

  datatype SignFile = SignFile(docId: string, fileType: string, signType: string, dataToBeSigned: string)

  /** The body of SmartCA's `v1/signatures/sign` request, without the service credentials. */
  datatype SignRequest = SignRequest(userId: string, transactionId: string, transactionDesc: string,
                                     serialNumber: string, timeStamp: string, signFiles: seq<SignFile>)

  /** SmartCA's answer: the `data` fields (`""` when absent), or a failure of any kind. */
  datatype SignResponse = SignFailed | SignAccepted(transactionId: string, tranCode: string)

  datatype WizardError = MissingUnsignedPdf | NotSignable | EmptyUnsignedPdf | PreparationFailed | SmartcaFailed

  datatype SendOutcome = Requested(request: SignRequest) | Refused(error: WizardError)

  datatype WizardData = WizardData(smartcaUserId: string, serialNumber: string, transactionDesc: string,
                                   docId: string, timeStamp: string)

  predicate Signable(s: VState) { s == Draft || s == Failed }

  /** The transaction id of a new request: the one already on the contract, else a fresh `SP_CA_` id. */
  function TxId(current: string, tag: string): (tx: string)
    ensures tx != ""
    ensures current != "" ==> tx == current
    ensures current == "" ==> StartsWith(tx, "SP_CA_")
  {
    if current != "" then current else "SP_CA_" + tag
  }

  /** The request `action_send` builds for the prepared bytes to sign. */
  function RequestOf(w: WizardData, d: ContractData, bytesToSign: Bytes, sha256: Bytes -> Bytes, tag: string)
    : SignRequest
  {
    SignRequest(w.smartcaUserId, TxId(d.tx.transactionId, tag), w.transactionDesc, w.serialNumber, w.timeStamp,
                [SignFile(w.docId, "pdf", "hash", HexUpper(sha256(bytesToSign)))])
  }

  function PlaceholderAttachment(d: ContractData, pdf: Bytes): Attachment {
    Attachment(BaseName(d) + " (director-placeholder).pdf", pdf, "")
  }

  /** The contract after SmartCA accepted the request `req` with the answer `resp`. */
  function Written(w: WizardData, d: ContractData, req: SignRequest, resp: SignResponse, pdf: Bytes): (d1: ContractData)
    requires resp.SignAccepted? && req.transactionId != ""
    ensures Polling(d1) && d1.unsigned == d.unsigned && d1.placeholder == Some(PlaceholderAttachment(d, pdf))
    ensures d1.directorSigned == d.directorSigned && d1.signatureValue == d.signatureValue
    ensures d1.tx.transactionId == (if resp.transactionId != "" then resp.transactionId else req.transactionId)
  {
    var t := SmartcaTx(w.smartcaUserId, w.serialNumber,
                       if resp.transactionId != "" then resp.transactionId else req.transactionId,
                       resp.tranCode, w.docId, w.transactionDesc, w.timeStamp);
    d.(state := WaitingDirector, tx := t, placeholder := Some(PlaceholderAttachment(d, pdf)))
  }

  /**
   * `action_send` on the wizard `w` for the contract `d`. `prepare` is the
   * PAdES preparation (original PDF, field name, reason), `sha256` the
   * digest, `tag` the random part of a new transaction id and `sign`
   * SmartCA. A refusal raises, so nothing is written.
   */
  function ActionSendOf(w: WizardData, d: ContractData, decode: string -> Bytes,
                        prepare: (Bytes, string, string) -> PrepareResult, sha256: Bytes -> Bytes,
                        tag: string, sign: SignRequest -> SignResponse): (r: (SendOutcome, ContractData))
    ensures r.0.Refused? ==> r.1 == d
    ensures d.unsigned.None? ==> r.0 == Refused(MissingUnsignedPdf)
    ensures d.unsigned.Some? && !Signable(d.state) ==> r.0 == Refused(NotSignable)
    ensures d.unsigned.Some? && Signable(d.state) && PdfBytes(d.unsigned, decode) == [] ==>
      r.0 == Refused(EmptyUnsignedPdf)
    ensures r.0.Requested? <==>
      d.unsigned.Some? && Signable(d.state) && PdfBytes(d.unsigned, decode) != [] &&
      var p := prepare(PdfBytes(d.unsigned, decode), SigFieldName(d.sigField), "Director sign contract " + d.name);
      p.Prepared? && sign(RequestOf(w, d, p.bytesToSign, sha256, tag)).SignAccepted?
    ensures r.0.Requested? ==>
      var p := prepare(PdfBytes(d.unsigned, decode), SigFieldName(d.sigField), "Director sign contract " + d.name);
      var resp := sign(r.0.request);
      r.0.request == RequestOf(w, d, p.bytesToSign, sha256, tag) &&
      r.1 == Written(w, d, r.0.request, resp, p.placeholderPdf)
  {
    if d.unsigned.None? then (Refused(MissingUnsignedPdf), d)
    else if !Signable(d.state) then (Refused(NotSignable), d)
    else
      var original := PdfBytes(d.unsigned, decode);
      if original == [] then (Refused(EmptyUnsignedPdf), d)
      else
        var p := prepare(original, SigFieldName(d.sigField), "Director sign contract " + d.name);
        if p.PrepareFailed? then (Refused(PreparationFailed), d)
        else
          var req := RequestOf(w, d, p.bytesToSign, sha256, tag);
          var resp := sign(req);
          if resp.SignFailed? then (Refused(SmartcaFailed), d)
          else (Requested(req), Written(w, d, req, resp, p.placeholderPdf))
  }

  /**
   * Exactly one file is sent, signed by hash: the upper-case hex SHA-256 of
   * the prepared bytes; an existing transaction id is reused.
   */
  lemma SendsOneHash(w: WizardData, d: ContractData, decode: string -> Bytes,
                     prepare: (Bytes, string, string) -> PrepareResult, sha256: Bytes -> Bytes,
                     tag: string, sign: SignRequest -> SignResponse)
    requires ActionSendOf(w, d, decode, prepare, sha256, tag, sign).0.Requested?
    ensures var req := ActionSendOf(w, d, decode, prepare, sha256, tag, sign).0.request;
            var p := prepare(PdfBytes(d.unsigned, decode), SigFieldName(d.sigField), "Director sign contract " + d.name);
            |req.signFiles| == 1 && req.signFiles[0].signType == "hash" && req.signFiles[0].docId == w.docId &&
            req.signFiles[0].dataToBeSigned == HexUpper(sha256(p.bytesToSign)) &&
            |req.signFiles[0].dataToBeSigned| == 2 * |sha256(p.bytesToSign)| &&
            (d.tx.transactionId != "" ==> req.transactionId == d.tx.transactionId)
  {
  }

  /**
   * A contract the wizard sent is one the poll cron looks at: it waits for
   * the director and has a transaction id. It cannot be sent again before
   * the poll settles it.
   */
  lemma SentContractIsPolled(w: WizardData, d: ContractData, decode: string -> Bytes,
                             prepare: (Bytes, string, string) -> PrepareResult, sha256: Bytes -> Bytes,
                             tag: string, sign: SignRequest -> SignResponse,
                             w2: WizardData, tag2: string)
    requires ActionSendOf(w, d, decode, prepare, sha256, tag, sign).0.Requested?
    ensures var d1 := ActionSendOf(w, d, decode, prepare, sha256, tag, sign).1;
            Polling(d1) && d1.placeholder.Some? &&
            ActionSendOf(w2, d1, decode, prepare, sha256, tag2, sign).0.Refused?
  {
  }

  /** The wizard over one contract. */
  class DirectorSignWizard {
    const contract: Contract
    var smartcaUserId: string
    var serialNumber: string
    var transactionDesc: string
    var docId: string
    var timeStamp: string

    function Data(): WizardData
      reads this
    {
      WizardData(smartcaUserId, serialNumber, transactionDesc, docId, timeStamp)
    }

    constructor (contract: Contract, userId: string, serial: string)
      ensures this.contract == contract && Data() == WizardData(userId, serial, "", "", "")
    {
      this.contract := contract;
      smartcaUserId, serialNumber := userId, serial;
      transactionDesc, docId, timeStamp := "", "", "";
    }

    /**
     * `action_autofill`: `partnerName` is the customer's display name,
     * `tag` the eight random hex digits and `now` the UTC clock.
     */
    method ActionAutofill(partnerName: string, tag: string, now: UtcTime)
      requires ValidTime(now)
      modifies this
      ensures Data() == WizardData(old(smartcaUserId), old(serialNumber), TransactionDesc(contract.name, partnerName),
                                   DocId(contract.id, tag), TimeStamp(now))
    {
      transactionDesc := TransactionDesc(contract.name, partnerName);
      docId := DocId(contract.id, tag);
      timeStamp := TimeStamp(now);
    }

    /** `action_send`: writes the contract only when SmartCA accepted the request. */
    method ActionSend(decode: string -> Bytes, prepare: (Bytes, string, string) -> PrepareResult,
                      sha256: Bytes -> Bytes, tag: string, sign: SignRequest -> SignResponse)
      returns (r: SendOutcome)
      modifies contract
      ensures (r, contract.Data()) == ActionSendOf(Data(), old(contract.Data()), decode, prepare, sha256, tag, sign)
    {
      var c := contract;
      if c.unsigned.None? {
        return Refused(MissingUnsignedPdf);
      }
      if c.state != Draft && c.state != Failed {
        return Refused(NotSignable);
      }
      var original := PdfBytes(c.unsigned, decode);
      if original == [] {
        return Refused(EmptyUnsignedPdf);
      }
      var p := prepare(original, SigFieldName(c.sigField), "Director sign contract " + c.name);
      if p.PrepareFailed? {
        return Refused(PreparationFailed);
      }
      var hash := HexUpper(sha256(p.bytesToSign));
      var placeholder := PlaceholderAttachment(c.Data(), p.placeholderPdf);
      var txId := if c.tx.transactionId != "" then c.tx.transactionId else "SP_CA_" + tag;
      var files := [SignFile(docId, "pdf", "hash", hash)];
      var req := SignRequest(smartcaUserId, txId, transactionDesc, serialNumber, timeStamp, files);
      var resp := sign(req);
      if resp.SignFailed? {
        return Refused(SmartcaFailed);
      }
      ghost var d0 := c.Data();
      assert req == RequestOf(Data(), d0, p.bytesToSign, sha256, tag);
      var t := SmartcaTx(smartcaUserId, serialNumber, if resp.transactionId != "" then resp.transactionId else txId,
                         resp.tranCode, docId, transactionDesc, timeStamp);
      c.WriteDirectorRequest(t, placeholder);
      assert c.Data() == Written(Data(), d0, req, resp, p.placeholderPdf);
      return Requested(req);
    }
  }
}
