/**
 * The DocuSign Connect webhook (`webhook_controller.py`): the signature
 * check, the chatter message for an event, and how an event updates the
 * connector lines that track its envelope and then the connector.
 *
 * HMAC-SHA256 and base64 are a parameter `hmac`; the chatter posts, the
 * event-time formatting and the contract custom fields are left out.
 */
module DocusignWebhook {
  import opened Common
  import opened DocusignClient
  import opened DocusignConnector

  // ---------------------------------------------------------------------
  // `_verify_hmac_signature`
  // ---------------------------------------------------------------------

  datatype Header = Header(name: string, value: string)

  predicate IsSignatureHeader(h: Header) {
    StartsWith(Lower(h.name), "x-docusign-signature-") && h.value != ""
  }

  /** The stripped values of the non-empty `x-docusign-signature-*` headers, in header order. */
  function SignatureHeaders(headers: seq<Header>): (sigs: seq<string>)
    ensures forall v :: v in sigs <==> exists h :: h in headers && IsSignatureHeader(h) && v == Trim(h.value)
    decreases |headers|
  {
    if headers == [] then []
    else
      var rest := SignatureHeaders(headers[1..]);
      assert forall h :: h in headers <==> h == headers[0] || h in headers[1..];
      if IsSignatureHeader(headers[0]) then [Trim(headers[0].value)] + rest else rest
  }

  /**
   * The signature check. `storedKey` is the configured key ("" when
   * unset); `hmac(key, body)` is base64(HMAC-SHA256(key, body)).
   */
  function VerifyHmac(storedKey: string, headers: seq<Header>, body: Bytes, hmac: (string, Bytes) -> string): (ok: bool)
    ensures Trim(storedKey) == "" ==> ok
    ensures Trim(storedKey) != "" && (forall h :: h in headers ==> !IsSignatureHeader(h)) ==> !ok
    ensures Trim(storedKey) != "" ==>
      (ok <==> exists h :: h in headers && IsSignatureHeader(h) && Trim(h.value) == hmac(Trim(storedKey), body))
  {
    var key := Trim(storedKey);
    if key == "" then true
    else
      var sigs := SignatureHeaders(headers);
      assert forall h :: h in headers && IsSignatureHeader(h) ==> Trim(h.value) in sigs;
      if sigs == [] then false
      else hmac(key, body) in sigs
  }

  // ---------------------------------------------------------------------
  // `_build_event_message` and `_get_recipient_name`
  // ---------------------------------------------------------------------

  function UpperChar(c: char): (d: char)
    ensures 'a' <= c <= 'z' ==> d as int == c as int - 32
    ensures !('a' <= c <= 'z') ==> d == c
  {
    if 'a' <= c <= 'z' then (c as int - 32) as char else c
  }

  /** Python's str.capitalize(): the first character upper-case, the rest lower-case (ASCII letters). */
  function Capitalize(s: string): (r: string)
    ensures |r| == |s|
    ensures s != [] ==> r[0] == UpperChar(s[0])
    ensures forall i :: 0 < i < |s| ==> r[i] == LowerChar(s[i])
    ensures forall i :: 0 < i < |r| ==> !('A' <= r[i] <= 'Z')
  {
    if s == [] then [] else [UpperChar(s[0])] + Lower(s[1..])
  }

  function ReplaceDash(s: string): (r: string)
    ensures |r| == |s|
    ensures forall i :: 0 <= i < |s| ==> r[i] == if s[i] == '-' then ' ' else s[i]
  {
    seq(|s|, i requires 0 <= i < |s| => if s[i] == '-' then ' ' else s[i])
  }

  function StripEventPrefix(event: string): string {
    if StartsWith(event, "recipient-") then event[|"recipient-"|..]
    else if StartsWith(event, "envelope-") then event[|"envelope-"|..]
    else event
  }

  /** The text that, stripped, names the event; the whole event when that text is empty. */
  function EventWords(event: string): string {
    Trim(ReplaceDash(StripEventPrefix(event)))
  }

  lemma TrimKeepsChars(s: string, i: nat)
    requires i < |Trim(s)|
    ensures Trim(s)[i] in s
  {
    var l := TrimLeft(s);
    assert Trim(s) == TrimRight(l);
    assert TrimRight(l)[i] == l[i];
    assert l[i] == s[|s| - |l| + i];
  }

  /** The event text of the chatter message. */
  function EventLabel(event: string): (text: string)
    ensures event == "" <==> text == ""
    ensures forall i :: 0 < i < |text| ==> !('A' <= text[i] <= 'Z')
    ensures EventWords(event) != "" ==> text == Capitalize(EventWords(event))
    ensures EventWords(event) == "" ==> text == Capitalize(event)
  {
    var words := EventWords(event);
    var source := if words != "" then words else event;
    assert event != "" ==> source != "";
    if event == "" then "" else Capitalize(source)
  }

  /** Once a prefix-stripped event has words, its text has no dash left. */
  lemma EventLabelHasNoDash(event: string)
    requires EventWords(event) != ""
    ensures '-' !in EventLabel(event)
  {
    var w := EventWords(event);
    var text := EventLabel(event);
    forall i | 0 <= i < |text|
      ensures text[i] != '-'
    {
      TrimKeepsChars(ReplaceDash(StripEventPrefix(event)), i);
      assert w[i] != '-';
    }
  }

  datatype WebSigner = WebSigner(recipientId: Option<string>, name: string, email: string, status: Option<string>)

  /**
   * The envelope part of the payload. `recipientId` is the first non-empty
   * of `recipientId` and `recipient_id` ("" when neither is there).
   */
  datatype EnvelopeData = EnvelopeData(recipientId: string, signers: seq<WebSigner>)

  /** Python's str() of a JSON value that may be missing. */
  function StrOf(v: Option<string>): string {
    if v.Some? then v.value else "None"
  }

  function NameOf(s: WebSigner): string {
    if s.name != "" then s.name else s.email
  }

  predicate Named(s: WebSigner) { NameOf(s) != "" }

  /**
   * The recipient named in the message: the signer with the payload's
   * recipient id, if it has a name or e-mail; else the first signer with
   * one; else `Recipient`.
   */
  function RecipientName(data: EnvelopeData): (n: string)
    ensures var byId := FirstWhere(data.signers, (s: WebSigner) => StrOf(s.recipientId) == data.recipientId && Named(s));
            data.recipientId != "" && byId.Some? ==> n == NameOf(data.signers[byId.value])
    ensures var byId := FirstWhere(data.signers, (s: WebSigner) => StrOf(s.recipientId) == data.recipientId && Named(s));
            var any := FirstWhere(data.signers, Named);
            (data.recipientId == "" || byId.None?) && any.Some? ==> n == NameOf(data.signers[any.value])
    ensures (forall i :: 0 <= i < |data.signers| ==> !Named(data.signers[i])) ==> n == "Recipient"
    ensures n != ""
  {
    var byId := FirstWhere(data.signers, (s: WebSigner) => StrOf(s.recipientId) == data.recipientId && Named(s));
    var any := FirstWhere(data.signers, Named);
    if data.recipientId != "" && byId.Some? then NameOf(data.signers[byId.value])
    else if any.Some? then NameOf(data.signers[any.value])
    else "Recipient"
  }

  /** The chatter message of an event; `time` is the formatted event time or `unknown time`. */
  function EventMessage(event: string, data: EnvelopeData, time: string): (m: string)
    ensures event == "" <==> m == ""
    ensures event != "" ==> m == "Contract " + EventLabel(event) + " to " + RecipientName(data) + " at " + time
  {
    if event == "" then "" else "Contract " + EventLabel(event) + " to " + RecipientName(data) + " at " + time
  }

  // ---------------------------------------------------------------------
  // `_mark_recipient_completion`
  // ---------------------------------------------------------------------

  predicate SignerCompleted(s: WebSigner) { s.status == Some("completed") }

  function EmailKey(email: string): string { Trim(Lower(email)) }

  /** The recipient id a signer contributes: its id, when it completed and has one. */
  function CompletedId(s: WebSigner): Option<string> {
    if SignerCompleted(s) && s.recipientId.Some? && s.recipientId.value != "" then Some(s.recipientId.value) else None
  }

  /** The e-mail key a signer contributes: its key, when it completed and the key is not empty. */
  function CompletedEmail(s: WebSigner): Option<string> {
    if SignerCompleted(s) && EmailKey(s.email) != "" then Some(EmailKey(s.email)) else None
  }

  /** The values `f` yields over a sequence, collected into a set. */
  function Collected<T>(xs: seq<T>, f: T -> Option<string>): (vs: set<string>)
    ensures forall v :: v in vs <==> exists i :: 0 <= i < |xs| && f(xs[i]) == Some(v)
    decreases |xs|
  {
    if xs == [] then {}
    else
      var init := xs[..|xs| - 1];
      assert forall i :: 0 <= i < |init| ==> init[i] == xs[i];
      Collected(init, f) + (if f(xs[|xs| - 1]).Some? then {f(xs[|xs| - 1]).value} else {})
  }

  /** Collecting one more element adds exactly what `f` yields for it. */
  lemma CollectedSnoc<T>(xs: seq<T>, k: nat, f: T -> Option<string>)
    requires k < |xs|
    ensures Collected(xs[..k + 1], f) == Collected(xs[..k], f) + (if f(xs[k]).Some? then {f(xs[k]).value} else {})
  {
    assert xs[..k + 1][..k] == xs[..k];
  }

  /** The recipient ids of the completed signers. */
  function CompletedIds(signers: seq<WebSigner>): set<string> { Collected(signers, CompletedId) }

  /** The lower-cased, stripped e-mails of the completed signers. */
  function CompletedEmails(signers: seq<WebSigner>): set<string> { Collected(signers, CompletedEmail) }

  /** The loop that collects the completed signers' ids and e-mails. */
  method CollectCompleted(signers: seq<WebSigner>) returns (ids: set<string>, emails: set<string>)
    ensures ids == CompletedIds(signers) && emails == CompletedEmails(signers)
  {
    ids, emails := {}, {};
    var k := 0;
    while k < |signers|
      invariant 0 <= k <= |signers|
      invariant ids == CompletedIds(signers[..k]) && emails == CompletedEmails(signers[..k])
    {
      var s := signers[k];
      CollectedSnoc(signers, k, CompletedId);
      CollectedSnoc(signers, k, CompletedEmail);
      if s.status == Some("completed") {
        if s.recipientId.Some? && s.recipientId.value != "" {
          ids := ids + {s.recipientId.value};
        }
        var email := EmailKey(s.email);
        if email != "" {
          emails := emails + {email};
        }
      }
      k := k + 1;
    }
    assert signers[..k] == signers;
  }

  /** A tracked, unsigned line whose recipient id or e-mail is among the completed ones. */
  predicate CompletesLine(l: Line, envelopeId: string, ids: set<string>, emails: set<string>) {
    l.envelopeId == envelopeId && !l.signStatus &&
    ((l.recipientId != "" && l.recipientId in ids) || (l.email != "" && EmailKey(l.email) in emails))
  }

  function MarkedLines(lines: seq<Line>, envelopeId: string, ids: set<string>, emails: set<string>): (r: seq<Line>)
    ensures |r| == |lines|
    ensures forall i :: 0 <= i < |lines| && CompletesLine(lines[i], envelopeId, ids, emails) ==>
      r[i] == lines[i].(signStatus := true, status := LCompleted)
    ensures forall i :: 0 <= i < |lines| && !CompletesLine(lines[i], envelopeId, ids, emails) ==> r[i] == lines[i]
  {
    seq(|lines|, i requires 0 <= i < |lines| =>
      if CompletesLine(lines[i], envelopeId, ids, emails) then lines[i].(signStatus := true, status := LCompleted)
      else lines[i])
  }

  /** One tracked line after the marking: signed when the event completes it. */
  function MarkedLine(l: Line, envelopeId: string, ids: set<string>, emails: set<string>): Line {
    if CompletesLine(l, envelopeId, ids, emails) then l.(signStatus := true, status := LCompleted) else l
  }

  /** The lines before position `n` marked, the rest untouched. */
  function MarkedPrefix(lines: seq<Line>, n: nat, envelopeId: string, ids: set<string>, emails: set<string>)
    : (r: seq<Line>)
    requires n <= |lines|
    ensures |r| == |lines|
  {
    seq(|lines|, i requires 0 <= i < |lines| => if i < n then MarkedLine(lines[i], envelopeId, ids, emails) else lines[i])
  }

  lemma MarkedPrefixStep(lines: seq<Line>, n: nat, envelopeId: string, ids: set<string>, emails: set<string>)
    requires n < |lines|
    ensures MarkedPrefix(lines, n + 1, envelopeId, ids, emails) ==
      MarkedPrefix(lines, n, envelopeId, ids, emails)[n := MarkedLine(lines[n], envelopeId, ids, emails)]
  {
  }

  lemma MarkedPrefixEnds(lines: seq<Line>, envelopeId: string, ids: set<string>, emails: set<string>)
    ensures MarkedPrefix(lines, 0, envelopeId, ids, emails) == lines
    ensures MarkedPrefix(lines, |lines|, envelopeId, ids, emails) == MarkedLines(lines, envelopeId, ids, emails)
  {
  }

  /** The loop over the tracked lines: an unsigned line matched by id or e-mail is marked signed. */
  method MarkLines(lines: seq<Line>, envelopeId: string, ids: set<string>, emails: set<string>)
    returns (r: seq<Line>)
    ensures r == MarkedLines(lines, envelopeId, ids, emails)
  {
    MarkedPrefixEnds(lines, envelopeId, ids, emails);
    r := lines;
    var i := 0;
    while i < |r|
      invariant 0 <= i <= |r| == |lines|
      invariant r == MarkedPrefix(lines, i, envelopeId, ids, emails)
    {
      var l := r[i];
      MarkedPrefixStep(lines, i, envelopeId, ids, emails);
      if !l.signStatus && l.envelopeId == envelopeId {
        var byId := l.recipientId != "" && l.recipientId in ids;
        var byEmail := l.email != "" && EmailKey(l.email) in emails;
        if byId || byEmail {
          r := r[i := l.(signStatus := true, status := LCompleted)];
        }
      }
      i := i + 1;
    }
  }

  /** Only `recipient-completed` events mark lines; lines already signed are skipped. */
  method MarkRecipientCompletion(c: Connector, envelopeId: string, data: EnvelopeData, event: string)
    modifies c
    ensures event != "recipient-completed" ==> unchanged(c)
    ensures event == "recipient-completed" ==>
      c.lines == MarkedLines(old(c.lines), envelopeId, CompletedIds(data.signers), CompletedEmails(data.signers))
    ensures c.state == old(c.state) && c.policy == old(c.policy) && c.attachments == old(c.attachments)
    ensures c.salePartner == old(c.salePartner) && c.name == old(c.name)
  {
    if event != "recipient-completed" {
      return;
    }
    var ids, emails := CollectCompleted(data.signers);
    if ids == {} && emails == {} {
      assert c.lines == MarkedLines(c.lines, envelopeId, ids, emails);
      return;
    }
    c.lines := MarkLines(c.lines, envelopeId, ids, emails);
  }

  /** Marking never touches a line that is already signed or tracks another envelope. */
  lemma MarkingKeepsOtherLines(lines: seq<Line>, envelopeId: string, data: EnvelopeData, i: nat)
    requires i < |lines| && (lines[i].signStatus || lines[i].envelopeId != envelopeId)
    ensures MarkedLines(lines, envelopeId, CompletedIds(data.signers), CompletedEmails(data.signers))[i] == lines[i]
  {
  }

  // ---------------------------------------------------------------------
  // `_update_envelope_status`
  // ---------------------------------------------------------------------

  /** `status_map`, with the line's own status for anything else. */
  function MappedStatus(status: Option<string>, current: LineStatus): (s: LineStatus)
    ensures status == Some("sent") || status == Some("delivered") ==> s == LSent
    ensures status == Some("completed") ==> s == LCompleted
    ensures status == Some("declined") || status == Some("voided") ==> s == LDraft
    ensures !(status.Some? && status.value in ["sent", "delivered", "completed", "declined", "voided"]) ==> s == current
  {
    if status == Some("sent") || status == Some("delivered") then LSent
    else if status == Some("completed") then LCompleted
    else if status == Some("declined") || status == Some("voided") then LDraft
    else current
  }

  /** The line after an envelope status event. */
  function LineAfterEvent(l: Line, status: Option<string>): (r: Line)
    ensures r.status == MappedStatus(status, l.status)
    ensures status == Some("sent") ==> r.sendStatus && r.signStatus == l.signStatus
    ensures status == Some("completed") ==> r.sendStatus && r.signStatus
    ensures status == Some("declined") || status == Some("voided") ==> !r.sendStatus && !r.signStatus
    ensures !(status.Some? && status.value in ["sent", "completed", "declined", "voided"]) ==>
      r.sendStatus == l.sendStatus && r.signStatus == l.signStatus
    ensures r.envelopeId == l.envelopeId && r.id == l.id && r.partnerId == l.partnerId && r.email == l.email
    ensures r.signed == l.signed && r.unsigned == l.unsigned && r.recipientId == l.recipientId
  {
    var s := l.(status := MappedStatus(status, l.status));
    if status == Some("sent") then s.(sendStatus := true)
    else if status == Some("completed") then s.(signStatus := true, sendStatus := true)
    else if status == Some("declined") || status == Some("voided") then s.(signStatus := false, sendStatus := false)
    else s
  }

  /** A tracked line (it has an envelope id) keeps the envelope-consistency constraint. */
  lemma EventKeepsEnvelopeConsistent(l: Line, status: Option<string>)
    requires l.envelopeId != "" && EnvelopeConsistent(l)
    ensures EnvelopeConsistent(LineAfterEvent(l, status))
  {
  }

  // ---------------------------------------------------------------------
  // `_download_signed_documents`
  // ---------------------------------------------------------------------

  predicate HasSignedCopy(lines: seq<Line>) {
    exists i :: 0 <= i < |lines| && lines[i].signed != []
  }

  predicate EnvelopeLevelCompletion(status: Option<string>, event: string) {
    status == Some("completed") && (event == "envelope-completed" || event == "envelope-complete")
  }

  /** The connector's state after the automatic download. */
  function StateAfterDownload(state: ConnectorState, lines: seq<Line>, status: Option<string>, event: string)
    : (s: ConnectorState)
    ensures EnvelopeLevelCompletion(status, event) ==> s == StCompleted
    ensures s == StCompleted ==> EnvelopeLevelCompletion(status, event) || state == StCompleted
    ensures !EnvelopeLevelCompletion(status, event) && (status == Some("sent") || status == Some("delivered")) ==>
      s == (if state == StNew then StSent
            else if (exists i :: 0 <= i < |lines| && lines[i].signStatus) && state != StCustomer && state != StCompleted
            then StCustomer else state)
    ensures !EnvelopeLevelCompletion(status, event) && !(status == Some("sent") || status == Some("delivered")) ==>
      s == state
  {
    if EnvelopeLevelCompletion(status, event) then StCompleted
    else if status == Some("sent") || status == Some("delivered") then
      if state == StNew then StSent
      else if (exists i :: 0 <= i < |lines| && lines[i].signStatus) && state != StCustomer && state != StCompleted
      then StCustomer
      else state
    else state
  }

  /** `download_docs` for the connector's policy, its error swallowed. */
  function Downloaded(d: ConnectorData, server: Server, newAttachment: nat): ConnectorData {
    if d.policy == InHierarchy then DownloadInHierarchy(d, server, newAttachment).data
    else DownloadSimultaneous(d, server, newAttachment).data
  }

  /** The connector after `_download_signed_documents` for it. */
  function AutoDownload(d: ConnectorData, server: Server, newAttachment: nat, status: Option<string>, event: string)
    : (r: ConnectorData)
    ensures |r.lines| == |d.lines|
    ensures HasSignedCopy(d.lines) ==> r == d
    ensures !HasSignedCopy(d.lines) ==>
      var d1 := Downloaded(d, server, newAttachment);
      r == d1.(state := StateAfterDownload(d.state, d1.lines, status, event))
  {
    if HasSignedCopy(d.lines) then d
    else
      var d1 := Downloaded(d, server, newAttachment);
      DownloadKeepsState(d, server, newAttachment);
      d1.(state := StateAfterDownload(d1.state, d1.lines, status, event))
  }

  /** A connector becomes `completed` here only on an envelope-level completion event. */
  lemma AutoDownloadCompletesOnlyOnEnvelopeEvent(d: ConnectorData, server: Server, newAttachment: nat,
                                                 status: Option<string>, event: string)
    requires d.state != StCompleted
    requires AutoDownload(d, server, newAttachment, status, event).state == StCompleted
    ensures EnvelopeLevelCompletion(status, event)
  {
  }

  /** Once a download stored a signed copy, later calls in the same request download nothing. */
  lemma {:induction false} StoredCopyStopsLaterDownloads(lines: seq<Line>, n: nat, server: Server, base: nat, i: nat)
    requires n <= |lines| && i < n
    requires AwaitingSignature(lines[i]) && Storable(DownloadOf(server, lines[i].envelopeId))
    ensures HasSignedCopy(DownloadedPrefix(lines, n, server, base))
  {
    var r := DownloadedPrefix(lines, n, server, base);
    assert r[i] == DownloadedLine(lines[i], server, base + i);
    assert r[i].signed != [];
  }

  /** The automatic download runs at most once: a second call after one that stored a copy changes nothing. */
  lemma AutoDownloadAtMostOnce(d: ConnectorData, server: Server, newAttachment: nat,
                               status: Option<string>, event: string, newAttachment2: nat)
    requires HasSignedCopy(AutoDownload(d, server, newAttachment, status, event).lines)
    ensures var d1 := AutoDownload(d, server, newAttachment, status, event);
            AutoDownload(d1, server, newAttachment2, status, event) == d1
  {
  }

  method DownloadSignedDocuments(c: Connector, server: Server, newAttachment: nat, status: Option<string>, event: string)
    modifies c
    ensures c.Data() == AutoDownload(old(c.Data()), server, newAttachment, status, event)
    ensures c.name == old(c.name) && |c.lines| == |old(c.lines)|
  {
    if exists i :: 0 <= i < |c.lines| && c.lines[i].signed != [] {
      return;
    }
    ghost var d0 := c.Data();
    var err := c.DownloadDocs(server, newAttachment);
    assert c.Data() == Downloaded(d0, server, newAttachment);
    c.state := StateAfterDownload(c.state, c.lines, status, event);
  }

  // ---------------------------------------------------------------------
  // `docusign_webhook_handler`
  // ---------------------------------------------------------------------

  /**
   * The parsed payload; `event` is the `event` value (`unknown` when the
   * key is absent) and `envelopeId` is "" when missing.
   */
  datatype Payload = Payload(event: string, envelopeId: string, envelopeStatus: Option<string>, data: EnvelopeData)

  datatype Response = Response(success: bool, message: string)

  predicate Tracks(lines: seq<Line>, envelopeId: string) {
    exists i :: 0 <= i < |lines| && lines[i].envelopeId == envelopeId
  }

  /** The positions of the lines that track an envelope, in record-set order. */
  function TrackingLines(lines: seq<Line>, envelopeId: string): (r: seq<nat>)
    ensures forall k :: 0 <= k < |r| ==> r[k] < |lines| && lines[r[k]].envelopeId == envelopeId
    ensures forall i :: 0 <= i < |lines| && lines[i].envelopeId == envelopeId ==> i in r
    decreases |lines|
  {
    if lines == [] then []
    else
      var init := TrackingLines(lines[..|lines| - 1], envelopeId);
      assert forall i :: 0 <= i < |lines| - 1 ==> lines[..|lines| - 1][i] == lines[i];
      if lines[|lines| - 1].envelopeId == envelopeId then init + [|lines| - 1] else init
  }

  /**
   * One tracked line processed as written: it takes the envelope status, its
   * connector re-checks the status with DocuSign (the result kept whatever
   * error it reports) and, on `completed`, downloads the signed copy.
   */
  function AfterTrackedLineAsWritten(d: ConnectorData, i: nat, p: Payload, server: Server, newAttachment: nat)
    : (r: ConnectorData)
    requires i < |d.lines|
    ensures |r.lines| == |d.lines|
  {
    var d1 := d.(lines := d.lines[i := LineAfterEvent(d.lines[i], p.envelopeStatus)]);
    var d2 := StatusCheck(d1, server).data;
    if p.envelopeStatus == Some("completed") then AutoDownload(d2, server, newAttachment, p.envelopeStatus, p.event)
    else d2
  }

  /**
   * As written, the line of a one-line connector never receives its signed
   * copy from the completion event: the event marks it signed first, and the
   * download only fetches lines that are sent and not yet signed.
   */
  lemma CompletedLineNeverDownloaded(d: ConnectorData, p: Payload, server: Server, newAttachment: nat)
    requires |d.lines| == 1 && !HasSignedCopy(d.lines)
    requires p.envelopeStatus == Some("completed")
    ensures !HasSignedCopy(AfterTrackedLineAsWritten(d, 0, p, server, newAttachment).lines)
  {
    var d1 := d.(lines := d.lines[0 := LineAfterEvent(d.lines[0], p.envelopeStatus)]);
    assert d1.lines[0].signStatus && d1.lines[0].signed == d.lines[0].signed;
    var d2 := StatusCheck(d1, server).data;
    assert d2.lines[0] == d1.lines[0] by {
      assert !StopsStatusCheck(d1.lines[0], server) ==> FirstWhere(d1.lines, l => StopsStatusCheck(l, server)).None?;
    }
    assert !HasSignedCopy(d2.lines);
    assert !AwaitingSignature(d2.lines[0]);
    var d3 := Downloaded(d2, server, newAttachment);
    assert d3.lines[0] == d2.lines[0];
  }

  /**
   * One tracked line processed with the signed copy fetched before the
   * event and the status check mark the line signed; the connector's state
   * is then set as the automatic download sets it.
   */
  function AfterTrackedLine(d: ConnectorData, i: nat, p: Payload, server: Server, newAttachment: nat)
    : (r: ConnectorData)
    requires i < |d.lines|
    ensures |r.lines| == |d.lines|
  {
    var fetch := p.envelopeStatus == Some("completed") && !HasSignedCopy(d.lines);
    var d0 := if fetch then Downloaded(d, server, newAttachment) else d;
    DownloadKeepsState(d, server, newAttachment);
    var d1 := d0.(lines := d0.lines[i := LineAfterEvent(d0.lines[i], p.envelopeStatus)]);
    var d2 := StatusCheck(d1, server).data;
    if fetch then d2.(state := StateAfterDownload(d2.state, d2.lines, p.envelopeStatus, p.event)) else d2
  }

  /**
   * Fetched first, the line of a one-line connector that was sent and
   * awaits its signature stores the signed copy when the envelope completes
   * and DocuSign hands out the document.
   */
  lemma CompletedLineDownloaded(d: ConnectorData, p: Payload, server: Server, newAttachment: nat)
    requires |d.lines| == 1 && !HasSignedCopy(d.lines)
    requires AwaitingSignature(d.lines[0]) && d.lines[0].envelopeId != ""
    requires Storable(DownloadOf(server, d.lines[0].envelopeId))
    requires p.envelopeStatus == Some("completed")
    ensures HasSignedCopy(AfterTrackedLine(d, 0, p, server, newAttachment).lines)
  {
    var d0 := Downloaded(d, server, newAttachment);
    assert d0.lines[0].signed != [] by {
      if d.policy == InHierarchy {
        assert FirstWhere(d.lines, AwaitingSignature) == Some(0);
      } else {
        assert FirstWhere(d.lines, l => StopsDownload(l, server)).None?;
      }
    }
    var d1 := d0.(lines := d0.lines[0 := LineAfterEvent(d0.lines[0], p.envelopeStatus)]);
    assert d1.lines[0].signed != [];
    var d2 := StatusCheck(d1, server).data;
    assert d2.lines[0].signed == d1.lines[0].signed;
    var r := AfterTrackedLine(d, 0, p, server, newAttachment);
    assert r.lines[0].signed != [];
  }

  /** The tracked lines processed one after the other, in record-set order. */
  function AfterTrackedLines(d: ConnectorData, found: seq<nat>, p: Payload, server: Server, newAttachment: nat)
    : (r: ConnectorData)
    requires forall k :: 0 <= k < |found| ==> found[k] < |d.lines|
    ensures |r.lines| == |d.lines|
    decreases |found|
  {
    if found == [] then d
    else AfterTrackedLines(AfterTrackedLine(d, found[0], p, server, newAttachment), found[1..], p, server, newAttachment)
  }

  /** The connector after `_mark_recipient_completion`. */
  function RecipientMarked(d: ConnectorData, p: Payload): (r: ConnectorData)
    ensures |r.lines| == |d.lines| && r == d.(lines := r.lines)
    ensures p.event != "recipient-completed" ==> r == d
    ensures forall i :: 0 <= i < |d.lines| && (d.lines[i].signStatus || d.lines[i].envelopeId != p.envelopeId) ==>
      r.lines[i] == d.lines[i]
    ensures forall i :: 0 <= i < |d.lines| && r.lines[i] != d.lines[i] ==>
      r.lines[i] == d.lines[i].(signStatus := true, status := LCompleted)
  {
    if p.event == "recipient-completed" then
      d.(lines := MarkedLines(d.lines, p.envelopeId, CompletedIds(p.data.signers), CompletedEmails(p.data.signers)))
    else d
  }

  /** The per-line loop of the handler. */
  method ProcessTrackedLines(c: Connector, found: seq<nat>, p: Payload, server: Server, newAttachment: nat)
    modifies c
    requires forall k :: 0 <= k < |found| ==> found[k] < |c.lines|
    ensures c.Data() == AfterTrackedLines(old(c.Data()), found, p, server, newAttachment)
    ensures c.name == old(c.name)
  {
    ghost var d0 := c.Data();
    var k := 0;
    while k < |found|
      invariant k <= |found| && |c.lines| == |d0.lines| && c.name == old(c.name)
      invariant AfterTrackedLines(c.Data(), found[k..], p, server, newAttachment) ==
                AfterTrackedLines(d0, found, p, server, newAttachment)
    {
      var i := found[k];
      ProcessTrackedLine(c, i, p, server, newAttachment);
      assert found[k..][0] == i && found[k..][1..] == found[k + 1..];
      k := k + 1;
    }
    assert found[k..] == [];
  }

  /** On `completed`, and only while the connector holds no signed copy, its documents are downloaded. */
  method FetchOnCompletion(c: Connector, p: Payload, server: Server, newAttachment: nat) returns (fetch: bool)
    modifies c
    ensures fetch == (p.envelopeStatus == Some("completed") && !HasSignedCopy(old(c.lines)))
    ensures c.Data() == (if fetch then Downloaded(old(c.Data()), server, newAttachment) else old(c.Data()))
    ensures c.name == old(c.name)
  {
    ghost var d := c.Data();
    fetch := p.envelopeStatus == Some("completed") && !(exists k :: 0 <= k < |c.lines| && c.lines[k].signed != []);
    if fetch {
      var err := c.DownloadDocs(server, newAttachment);
      assert c.Data() == Downloaded(d, server, newAttachment);
    }
  }

  /**
   * One tracked line: on `completed` the signed copy is fetched first, then
   * the line takes its status from the event, then the status check runs
   * and, after a fetch, the connector's state is set.
   */
  method ProcessTrackedLine(c: Connector, i: nat, p: Payload, server: Server, newAttachment: nat)
    modifies c
    requires i < |c.lines|
    ensures c.Data() == AfterTrackedLine(old(c.Data()), i, p, server, newAttachment)
    ensures c.name == old(c.name)
  {
    var fetch := FetchOnCompletion(c, p, server, newAttachment);
    c.lines := c.lines[i := LineAfterEvent(c.lines[i], p.envelopeStatus)];
    var err := c.StatusDocs(server);
    if fetch {
      c.state := StateAfterDownload(c.state, c.lines, p.envelopeStatus, p.event);
    }
  }

  /**
   * One webhook call for the connector whose lines the envelope belongs
   * to; `parsed` is the body read as JSON, `None` when it is not valid JSON.
   * Every early return leaves the connector untouched.
   */
  method HandleWebhook(c: Connector, storedKey: string, headers: seq<Header>, body: Bytes,
                       hmac: (string, Bytes) -> string, parsed: Option<Payload>, server: Server, newAttachment: nat)
    returns (resp: Response)
    modifies c
    ensures parsed.None? ==> resp == Response(false, "Invalid JSON") && unchanged(c)
    ensures parsed.Some? && !VerifyHmac(storedKey, headers, body, hmac) ==>
      resp == Response(false, "Invalid signature") && unchanged(c)
    ensures parsed.Some? && VerifyHmac(storedKey, headers, body, hmac) && parsed.value.envelopeId == "" ==>
      resp == Response(false, "Missing envelope ID") && unchanged(c)
    ensures parsed.Some? && VerifyHmac(storedKey, headers, body, hmac) && parsed.value.envelopeId != "" &&
            !Tracks(old(c.lines), parsed.value.envelopeId) ==>
      resp == Response(true, "Envelope not tracked") && unchanged(c)
    ensures parsed.Some? && VerifyHmac(storedKey, headers, body, hmac) && parsed.value.envelopeId != "" &&
            Tracks(old(c.lines), parsed.value.envelopeId) ==>
      var p := parsed.value;
      resp == Response(true, "Webhook processed") &&
      c.Data() == AfterTrackedLines(RecipientMarked(old(c.Data()), p), TrackingLines(old(c.lines), p.envelopeId),
                                    p, server, newAttachment)
    ensures c.name == old(c.name) && |c.lines| == |old(c.lines)|
  {
    if parsed.None? {
      return Response(false, "Invalid JSON");
    }
    var p := parsed.value;
    if !VerifyHmac(storedKey, headers, body, hmac) {
      return Response(false, "Invalid signature");
    }
    if p.envelopeId == "" {
      return Response(false, "Missing envelope ID");
    }
    if !Tracks(c.lines, p.envelopeId) {
      return Response(true, "Envelope not tracked");
    }
    var found := TrackingLines(c.lines, p.envelopeId);
    MarkRecipientCompletion(c, p.envelopeId, p.data, p.event);
    ProcessTrackedLines(c, found, p, server, newAttachment);
    return Response(true, "Webhook processed");
  }
}
