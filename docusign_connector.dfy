/**
 * A DocuSign connector record (`docusign.connector`) and its recipient
 * lines (`docusign.connector.lines`): sending the document, downloading
 * the signed copy, checking the signature status, and the constraints on
 * a line.
 *
 * The lines are values kept in the connector's `lines` sequence in the
 * order the record set lists them. A method that raises part-way through
 * a loop keeps the writes it made before the raise, as the Odoo
 * transaction does until it is rolled back; the caller decides (a button
 * rolls back, the webhook swallows the error and keeps them).
 */
module DocusignConnector {
  import opened Common
  import opened DocusignClient

  datatype ConnectorState = StNew | StOpen | StSent | StCustomer | StCompleted
  datatype LineStatus = LDraft | LSent | LCompleted
  /** `in`: one recipient after the other; `out`: all at once. */
  datatype Policy = InHierarchy | Simultaneously

  datatype Attachment = Attachment(id: nat, name: string)

  /** A recipient line; "" stands for an empty `email`, `envelope_id` or `recipient_id`. */
  datatype Line = Line(id: nat, partnerId: nat, email: string, status: LineStatus, envelopeId: string,
                       sendStatus: bool, signStatus: bool, recipientId: string,
                       unsigned: seq<Attachment>, signed: seq<Attachment>, name: string)

  /** `|=` on a many2many field: the attachment is added unless it is already there. */
  function AddAttachment(s: seq<Attachment>, a: Attachment): (r: seq<Attachment>)
    ensures a in r
    ensures forall b :: b in s ==> b in r
    ensures forall b :: b in r ==> b in s || b == a
    ensures a in s ==> r == s
  {
    if a in s then s else s + [a]
  }

  // ---------------------------------------------------------------------
  // Line constraints
  // ---------------------------------------------------------------------

  /** `_check_envelope_consistency`: a sent or completed line has an envelope id. */
  predicate EnvelopeConsistent(l: Line) {
    l.status != LDraft ==> l.envelopeId != ""
  }

  /** `UNIQUE(envelope_id, partner_id)`; lines without an envelope id (NULL) are exempt. */
  predicate EnvelopePartnerUnique(lines: seq<Line>) {
    forall i, j :: 0 <= i < j < |lines| && lines[i].envelopeId != "" ==>
      !(lines[i].envelopeId == lines[j].envelopeId && lines[i].partnerId == lines[j].partnerId)
  }

  predicate LinesValid(lines: seq<Line>) {
    (forall i :: 0 <= i < |lines| ==> EnvelopeConsistent(lines[i])) && EnvelopePartnerUnique(lines)
  }

  predicate IsAsciiLetter(c: char) {
    'a' <= c <= 'z' || 'A' <= c <= 'Z'
  }

  /** `[a-zA-Z0-9._%+-]` */
  predicate LocalChar(c: char) {
    IsAsciiLetter(c) || IsDigit(c) || c == '.' || c == '_' || c == '%' || c == '+' || c == '-'
  }

  /** `[a-zA-Z0-9.-]` */
  predicate DomainChar(c: char) {
    IsAsciiLetter(c) || IsDigit(c) || c == '.' || c == '-'
  }

  predicate AllLocal(s: string) { forall i :: 0 <= i < |s| ==> LocalChar(s[i]) }
  predicate AllDomain(s: string) { forall i :: 0 <= i < |s| ==> DomainChar(s[i]) }
  predicate AllLetters(s: string) { forall i :: 0 <= i < |s| ==> IsAsciiLetter(s[i]) }

  /** What `$` leaves to match: `re.match` with `$` also succeeds before one final newline. */
  function PatternBody(s: string): string {
    if s != [] && s[|s| - 1] == '\n' then s[..|s| - 1] else s
  }

  /**
   * The reference reading of `^[a-zA-Z0-9._%+-]+@[a-zA-Z0-9.-]+\.[a-zA-Z]{2,}$`:
   * some split of the body into local part, `@`, domain, `.`, and a
   * top-level part of two or more letters.
   */
  ghost predicate EmailShape(b: string) {
    exists at, dot :: 0 < at && at + 1 < dot && dot + 3 <= |b| && b[at] == '@' && b[dot] == '.' &&
      AllLocal(b[..at]) && AllDomain(b[at + 1..dot]) && AllLetters(b[dot + 1..])
  }

  function IndexOf(s: string, c: char): (k: Option<nat>)
    ensures k.Some? ==> k.value < |s| && s[k.value] == c && forall j :: 0 <= j < k.value ==> s[j] != c
    ensures k.None? ==> forall j :: 0 <= j < |s| ==> s[j] != c
    decreases |s|
  {
    if s == [] then None
    else if s[0] == c then Some(0)
    else
      var r := IndexOf(s[1..], c);
      if r.None? then None else Some(r.value + 1)
  }

  function LastIndexOf(s: string, c: char): (k: Option<nat>)
    ensures k.Some? ==> k.value < |s| && s[k.value] == c && forall j :: k.value < j < |s| ==> s[j] != c
    ensures k.None? ==> forall j :: 0 <= j < |s| ==> s[j] != c
    decreases |s|
  {
    if s == [] then None
    else if s[|s| - 1] == c then Some(|s| - 1)
    else LastIndexOf(s[..|s| - 1], c)
  }

  /** The e-mail check: the `@` must be the first one and the `.` the last one of the body. */
  function EmailMatches(s: string): bool {
    var b := PatternBody(s);
    var at := IndexOf(b, '@');
    var dot := LastIndexOf(b, '.');
    at.Some? && dot.Some? && 0 < at.value && at.value + 1 < dot.value && dot.value + 3 <= |b| &&
    AllLocal(b[..at.value]) && AllDomain(b[at.value + 1..dot.value]) && AllLetters(b[dot.value + 1..])
  }

  lemma FirstOccurrence(b: string, c: char, at: nat)
    requires at < |b| && b[at] == c && forall j :: 0 <= j < at ==> b[j] != c
    ensures IndexOf(b, c) == Some(at)
  {
  }

  lemma LastOccurrence(b: string, c: char, at: nat)
    requires at < |b| && b[at] == c && forall j :: at < j < |b| ==> b[j] != c
    ensures LastIndexOf(b, c) == Some(at)
  {
  }

  lemma ShapeMatches(b: string)
    requires EmailShape(b)
    ensures var at := IndexOf(b, '@');
            var dot := LastIndexOf(b, '.');
            at.Some? && dot.Some? && 0 < at.value && at.value + 1 < dot.value && dot.value + 3 <= |b| &&
            AllLocal(b[..at.value]) && AllDomain(b[at.value + 1..dot.value]) && AllLetters(b[dot.value + 1..])
  {
    var at, dot :| 0 < at && at + 1 < dot && dot + 3 <= |b| && b[at] == '@' && b[dot] == '.' &&
      AllLocal(b[..at]) && AllDomain(b[at + 1..dot]) && AllLetters(b[dot + 1..]);
    forall j | 0 <= j < at ensures b[j] != '@' {
      assert LocalChar(b[..at][j]);
    }
    forall j | dot < j < |b| ensures b[j] != '.' {
      assert IsAsciiLetter(b[dot + 1..][j - dot - 1]);
    }
    FirstOccurrence(b, '@', at);
    LastOccurrence(b, '.', dot);
  }

  /** The computed check agrees with the reference reading of the pattern. */
  lemma EmailMatchesIff(s: string)
    ensures EmailMatches(s) <==> EmailShape(PatternBody(s))
  {
    var b := PatternBody(s);
    if EmailShape(b) {
      ShapeMatches(b);
    }
    if EmailMatches(s) {
      var at := IndexOf(b, '@').value;
      var dot := LastIndexOf(b, '.').value;
      assert 0 < at && at + 1 < dot && dot + 3 <= |b| && b[at] == '@' && b[dot] == '.' &&
        AllLocal(b[..at]) && AllDomain(b[at + 1..dot]) && AllLetters(b[dot + 1..]);
    }
  }

  datatype LineError = PartnerEmailMissing | PartnerEmailInvalid

  /** `_check_partner_email`: a recipient needs an e-mail address, and it must match the pattern. */
  function CheckPartnerEmail(email: string): (r: Option<LineError>)
    ensures r == Some(PartnerEmailMissing) <==> email == ""
    ensures r == Some(PartnerEmailInvalid) <==> email != "" && !EmailShape(PatternBody(email))
    ensures r.None? <==> email != "" && EmailShape(PatternBody(email))
  {
    EmailMatchesIff(email);
    if email == "" then Some(PartnerEmailMissing)
    else if !EmailMatches(email) then Some(PartnerEmailInvalid)
    else None
  }

  // ---------------------------------------------------------------------
  // The connector's data and the results of its buttons
  // ---------------------------------------------------------------------

  datatype ConnectorData = ConnectorData(state: ConnectorState, policy: Policy, attachments: seq<Attachment>,
                                         lines: seq<Line>, salePartner: Option<nat>)

  datatype ConnError =
    | NoAttachments | NoRecipients | AllSent | MissingEmail(partnerId: nat) | WaitForPrevious(partnerId: nat)
    | SendFailed | EnvelopeIdRequired | Unexpected
    | NoRecipientToDownload | MissingEnvelopeId(partnerId: nat) | ClientFailed

  /** The outcome of a button: the data it leaves, with the error it raised, if any. */
  datatype Result = Ok(data: ConnectorData) | Err(error: ConnError, data: ConnectorData)

  // ---------------------------------------------------------------------
  // `send_docs`
  // ---------------------------------------------------------------------

  /** An earlier line whose signed copy would be passed on: signed, before `bound`, with a signed attachment. */
  predicate Eligible(l: Line, bound: nat) {
    l.id < bound && l.signStatus && l.signed != []
  }

  /**
   * The eligible line with the largest id (the first of equal ids, as the
   * stable reversed sort leaves it).
   */
  function LatestSigned(lines: seq<Line>, bound: nat): (r: Option<nat>)
    ensures r.Some? ==> r.value < |lines| && Eligible(lines[r.value], bound)
    ensures r.Some? ==> forall j :: 0 <= j < |lines| && Eligible(lines[j], bound) ==> lines[j].id <= lines[r.value].id
    ensures r.Some? ==> forall j :: 0 <= j < r.value && Eligible(lines[j], bound) ==> lines[j].id < lines[r.value].id
    ensures r.None? ==> forall j :: 0 <= j < |lines| ==> !Eligible(lines[j], bound)
    decreases |lines|
  {
    if lines == [] then None
    else
      var prev := LatestSigned(lines[..|lines| - 1], bound);
      var last := lines[|lines| - 1];
      if Eligible(last, bound) && (prev.None? || last.id > lines[prev.value].id) then Some(|lines| - 1)
      else prev
  }

  /** The document sent in sequence: the latest signed copy of an earlier line, else the first original. */
  function ChosenAttachment(d: ConnectorData, bound: nat): (a: Attachment)
    requires d.attachments != []
    ensures LatestSigned(d.lines, bound).None? ==> a == d.attachments[0]
    ensures LatestSigned(d.lines, bound).Some? ==> a == d.lines[LatestSigned(d.lines, bound).value].signed[0]
  {
    var j := LatestSigned(d.lines, bound);
    if j.Some? then d.lines[j.value].signed[0] else d.attachments[0]
  }

  /** The target line after its envelope was created. */
  function SentLine(l: Line, a: Attachment, envelopeId: string): (r: Line)
    ensures r.status == LSent && r.sendStatus && r.envelopeId == envelopeId && r.name == a.name
    ensures r.unsigned == AddAttachment(l.unsigned, a)
    ensures r.id == l.id && r.partnerId == l.partnerId && r.email == l.email && r.signStatus == l.signStatus
    ensures r.signed == l.signed && r.recipientId == l.recipientId
  {
    l.(unsigned := AddAttachment(l.unsigned, a), status := LSent, name := a.name, envelopeId := envelopeId,
       sendStatus := true)
  }

  predicate Unsent(l: Line) { !l.sendStatus }

  /**
   * `send_docs`. `envelope` is what the DocuSign client returns for the
   * envelope it creates (None when it raises). The simultaneous policy
   * checks the first line's e-mail and then always fails: its extension
   * check calls a module the source never imports.
   */
  function Send(d: ConnectorData, envelope: Option<string>): (r: Result)
    ensures r.Err? ==> r.data == d
    ensures d.attachments == [] ==> r == Err(NoAttachments, d)
    ensures d.attachments != [] && d.lines == [] ==> r == Err(NoRecipients, d)
    ensures d.policy == Simultaneously ==> r.Err?
    ensures d.policy == InHierarchy && d.attachments != [] && d.lines != [] && FirstWhere(d.lines, Unsent).None? ==>
      r == Err(AllSent, d)
    ensures r.Ok? ==> d.policy == InHierarchy
    ensures r.Ok? ==> FirstWhere(d.lines, Unsent).Some?
    ensures r.Ok? ==> envelope.Some?
    ensures r.Ok? ==>
      var k := FirstWhere(d.lines, Unsent).value;
      d.lines[k].email != "" &&
      (forall j :: 0 <= j < |d.lines| && d.lines[j].id < d.lines[k].id ==> d.lines[j].signStatus) &&
      r.data == d.(lines := d.lines[k := SentLine(d.lines[k], ChosenAttachment(d, d.lines[k].id), envelope.value)],
                   state := StSent)
  {
    if d.attachments == [] then Err(NoAttachments, d)
    else if d.lines == [] then Err(NoRecipients, d)
    else if !d.policy.InHierarchy? then
      (if d.lines[0].email == "" then Err(MissingEmail(d.lines[0].partnerId), d) else Err(Unexpected, d))
    else
      var k := FirstWhere(d.lines, Unsent);
      if k.None? then Err(AllSent, d)
      else
        var line := d.lines[k.value];
        var blocking := FirstWhere(d.lines, (l: Line) => l.id < line.id && !l.signStatus);
        if line.email == "" then Err(MissingEmail(line.partnerId), d)
        else if blocking.Some? then Err(WaitForPrevious(d.lines[blocking.value].partnerId), d)
        else if envelope.None? then Err(SendFailed, d)
        else if envelope.value == "" then Err(EnvelopeIdRequired, d)
        else if exists j :: 0 <= j < |d.lines| && j != k.value &&
                  d.lines[j].envelopeId == envelope.value && d.lines[j].partnerId == line.partnerId then
          Err(Unexpected, d)
        else
          var a := ChosenAttachment(d, line.id);
          Ok(d.(lines := d.lines[k.value := SentLine(line, a, envelope.value)], state := StSent))
  }

  /** Sending is refused while a line with a smaller id is unsigned. */
  lemma SendWaitsForEarlierSignatures(d: ConnectorData, envelope: Option<string>, j: nat)
    requires d.policy == InHierarchy && FirstWhere(d.lines, Unsent).Some?
    requires j < |d.lines| && !d.lines[j].signStatus
    requires d.lines[j].id < d.lines[FirstWhere(d.lines, Unsent).value].id
    ensures Send(d, envelope).Err?
  {
  }

  /** A successful send keeps every line constraint. */
  lemma SendKeepsLinesValid(d: ConnectorData, envelope: Option<string>)
    requires LinesValid(d.lines)
    ensures LinesValid(Send(d, envelope).data.lines)
  {
    var r := Send(d, envelope);
    if r.Ok? {
      var k := FirstWhere(d.lines, Unsent).value;
      var lines := r.data.lines;
      assert lines[k].envelopeId == envelope.value && envelope.value != "";
      forall i, j | 0 <= i < j < |lines| && lines[i].envelopeId != ""
        ensures !(lines[i].envelopeId == lines[j].envelopeId && lines[i].partnerId == lines[j].partnerId)
      {
        if i != k && j != k {
          assert lines[i] == d.lines[i] && lines[j] == d.lines[j];
        } else if i == k {
          assert lines[j] == d.lines[j];
        } else {
          assert lines[i] == d.lines[i];
        }
      }
    }
  }

  // ---------------------------------------------------------------------
  // `download_docs`
  // ---------------------------------------------------------------------

  /** A line whose signed copy was stored: the attachment is added, the line completed and signed. */
  function StoredLine(l: Line, a: Attachment): (r: Line)
    ensures r.signed == AddAttachment(l.signed, a) && r.status == LCompleted && r.signStatus
    ensures r.id == l.id && r.partnerId == l.partnerId && r.envelopeId == l.envelopeId && r.sendStatus == l.sendStatus
    ensures r.unsigned == l.unsigned && r.email == l.email && r.recipientId == l.recipientId
  {
    l.(signed := AddAttachment(l.signed, a), status := LCompleted, signStatus := true)
  }

  predicate AwaitingSignature(l: Line) { l.sendStatus && !l.signStatus }

  /** The reply the connector stores: exactly the single status `completed` with a document. */
  predicate Storable(reply: DownloadReply) {
    reply.Fetched? && reply.status == SingleStatus("completed") && reply.doc.Some?
  }

  /** A multi-signer envelope answers with a dict of statuses, which `download_docs` never stores. */
  lemma MultiSignerNeverStored(server: Server, envelopeId: string)
    requires envelopeId in server && |server[envelopeId].signers| > 1
    ensures !Storable(DownloadOf(server, envelopeId))
  {
  }

  /**
   * `download_docs` in sequence: the first sent, unsigned line is
   * downloaded; a completed copy is stored on it as attachment
   * `newAttachment` and handed on to the first later line not yet sent.
   */
  function DownloadInHierarchy(d: ConnectorData, server: Server, newAttachment: nat): (r: Result)
    ensures r.Err? ==> r.data == d
    ensures FirstWhere(d.lines, AwaitingSignature).None? ==> r == Err(NoRecipientToDownload, d)
    ensures r.Ok? ==> r.data.state == d.state && r.data.attachments == d.attachments && |r.data.lines| == |d.lines|
    ensures r.Ok? && r.data != d ==>
      var k := FirstWhere(d.lines, AwaitingSignature).value;
      var reply := DownloadOf(server, d.lines[k].envelopeId);
      Storable(reply) &&
      r.data.lines[k] == StoredLine(d.lines[k], Attachment(newAttachment, reply.doc.value.filename))
    ensures r.Ok? && r.data != d ==>
      var k := FirstWhere(d.lines, AwaitingSignature).value;
      var a := Attachment(newAttachment, DownloadOf(server, d.lines[k].envelopeId).doc.value.filename);
      forall i :: 0 <= i < |d.lines| && i != k && r.data.lines[i] != d.lines[i] ==>
        d.lines[i].id > d.lines[k].id && !d.lines[i].sendStatus &&
        (forall j :: 0 <= j < i && d.lines[j].id > d.lines[k].id ==> d.lines[j].sendStatus) &&
        r.data.lines[i] == d.lines[i].(unsigned := AddAttachment(d.lines[i].unsigned, a))
  {
    var k := FirstWhere(d.lines, AwaitingSignature);
    if k.None? then Err(NoRecipientToDownload, d)
    else
      var line := d.lines[k.value];
      if line.envelopeId == "" then Err(MissingEnvelopeId(line.partnerId), d)
      else
        var reply := DownloadOf(server, line.envelopeId);
        if reply.DownloadFailed? then Err(ClientFailed, d)
        else if !Storable(reply) then Ok(d)
        else
          var a := Attachment(newAttachment, reply.doc.value.filename);
          var lines := d.lines[k.value := StoredLine(line, a)];
          var next := FirstWhere(lines, (l: Line) => l.id > line.id && !l.sendStatus);
          if next.None? then Ok(d.(lines := lines))
          else Ok(d.(lines := lines[next.value := lines[next.value].(unsigned := AddAttachment(lines[next.value].unsigned, a))]))
  }

  /** The signed copy is handed to the first later line not yet sent. */
  lemma DownloadHandsCopyOn(d: ConnectorData, server: Server, newAttachment: nat)
    requires FirstWhere(d.lines, AwaitingSignature).Some?
    requires var k := FirstWhere(d.lines, AwaitingSignature).value;
             d.lines[k].envelopeId != "" && Storable(DownloadOf(server, d.lines[k].envelopeId))
    ensures var k := FirstWhere(d.lines, AwaitingSignature).value;
            var a := Attachment(newAttachment, DownloadOf(server, d.lines[k].envelopeId).doc.value.filename);
            forall m :: 0 <= m < |d.lines| && d.lines[m].id > d.lines[k].id && !d.lines[m].sendStatus &&
                        (forall j :: 0 <= j < m && d.lines[j].id > d.lines[k].id ==> d.lines[j].sendStatus) ==>
              a in DownloadInHierarchy(d, server, newAttachment).data.lines[m].unsigned
  {
    var k := FirstWhere(d.lines, AwaitingSignature).value;
    var line := d.lines[k];
    var a := Attachment(newAttachment, DownloadOf(server, line.envelopeId).doc.value.filename);
    var lines := d.lines[k := StoredLine(line, a)];
    var next := FirstWhere(lines, (l: Line) => l.id > line.id && !l.sendStatus);
    forall m | 0 <= m < |d.lines| && d.lines[m].id > d.lines[k].id && !d.lines[m].sendStatus &&
               (forall j :: 0 <= j < m && d.lines[j].id > d.lines[k].id ==> d.lines[j].sendStatus)
      ensures a in DownloadInHierarchy(d, server, newAttachment).data.lines[m].unsigned
    {
      assert m != k;
      assert lines[m] == d.lines[m];
      assert next.Some?;
      assert next.value == m;
    }
  }

  /** The line a simultaneous download leaves: stored when its envelope is fully completed. */
  function DownloadedLine(l: Line, server: Server, newAttachment: nat): Line {
    if AwaitingSignature(l) && Storable(DownloadOf(server, l.envelopeId)) then
      StoredLine(l, Attachment(newAttachment, DownloadOf(server, l.envelopeId).doc.value.filename))
    else l
  }

  /** Where a simultaneous download stops: a line without envelope id, or a failed download. */
  predicate StopsDownload(l: Line, server: Server) {
    l.envelopeId == "" || (AwaitingSignature(l) && DownloadOf(server, l.envelopeId).DownloadFailed?)
  }

  /** The lines before position `n` downloaded (line i gets attachment `base + i`), the rest untouched. */
  function DownloadedPrefix(lines: seq<Line>, n: nat, server: Server, base: nat): (r: seq<Line>)
    requires n <= |lines|
    ensures |r| == |lines|
    ensures forall i :: 0 <= i < n ==> r[i] == DownloadedLine(lines[i], server, base + i)
    ensures forall i :: n <= i < |lines| ==> r[i] == lines[i]
  {
    seq(|lines|, i requires 0 <= i < |lines| => if i < n then DownloadedLine(lines[i], server, base + i) else lines[i])
  }

  function DownloadSimultaneous(d: ConnectorData, server: Server, base: nat): (r: Result)
    ensures r.data.state == d.state && r.data.attachments == d.attachments
    ensures r.Ok? <==> FirstWhere(d.lines, l => StopsDownload(l, server)).None?
    ensures r.Ok? ==> r.data.lines == DownloadedPrefix(d.lines, |d.lines|, server, base)
    ensures r.Err? ==>
      r.data.lines == DownloadedPrefix(d.lines, FirstWhere(d.lines, l => StopsDownload(l, server)).value, server, base)
  {
    var stop := FirstWhere(d.lines, l => StopsDownload(l, server));
    if stop.None? then Ok(d.(lines := DownloadedPrefix(d.lines, |d.lines|, server, base)))
    else
      var l := d.lines[stop.value];
      var lines := DownloadedPrefix(d.lines, stop.value, server, base);
      if l.envelopeId == "" then Err(MissingEnvelopeId(l.partnerId), d.(lines := lines))
      else Err(ClientFailed, d.(lines := lines))
  }

  /** No download ever changes the connector's state: the webhook decides it. */
  lemma DownloadKeepsState(d: ConnectorData, server: Server, newAttachment: nat)
    ensures DownloadInHierarchy(d, server, newAttachment).data.state == d.state
    ensures DownloadSimultaneous(d, server, newAttachment).data.state == d.state
  {
  }

  // ---------------------------------------------------------------------
  // `status_docs`
  // ---------------------------------------------------------------------

  predicate StopsStatusCheck(l: Line, server: Server) {
    l.envelopeId == "" || (!l.signStatus && StatusOf(server, l.envelopeId).StatusFailed?)
  }

  /** An unsigned line whose envelope reports the single status `completed` becomes signed. */
  function CheckedLine(l: Line, server: Server): (r: Line)
    ensures !l.signStatus && StatusOf(server, l.envelopeId) == SingleStatus("completed") ==>
      r == l.(status := LCompleted, signStatus := true)
    ensures !(!l.signStatus && StatusOf(server, l.envelopeId) == SingleStatus("completed")) ==> r == l
  {
    if !l.signStatus && StatusOf(server, l.envelopeId) == SingleStatus("completed") then
      l.(status := LCompleted, signStatus := true)
    else l
  }

  function CheckedPrefix(lines: seq<Line>, n: nat, server: Server): (r: seq<Line>)
    requires n <= |lines|
    ensures |r| == |lines|
    ensures forall i :: 0 <= i < n ==> r[i] == CheckedLine(lines[i], server)
    ensures forall i :: n <= i < |lines| ==> r[i] == lines[i]
  {
    seq(|lines|, i requires 0 <= i < |lines| => if i < n then CheckedLine(lines[i], server) else lines[i])
  }

  function LinesOfPartner(lines: seq<Line>, partner: nat): (r: seq<Line>)
    ensures forall l :: l in r <==> l in lines && l.partnerId == partner
    decreases |lines|
  {
    if lines == [] then []
    else if lines[0].partnerId == partner then [lines[0]] + LinesOfPartner(lines[1..], partner)
    else LinesOfPartner(lines[1..], partner)
  }

  /** The lines that decide the state: the sale customer's lines when there are any, else all lines. */
  function RelevantLines(lines: seq<Line>, salePartner: Option<nat>): (r: seq<Line>)
    ensures salePartner.Some? && LinesOfPartner(lines, salePartner.value) != [] ==>
      r == LinesOfPartner(lines, salePartner.value)
    ensures !(salePartner.Some? && LinesOfPartner(lines, salePartner.value) != []) ==> r == lines
    ensures forall l :: l in r ==> l in lines
  {
    if salePartner.Some? && LinesOfPartner(lines, salePartner.value) != [] then LinesOfPartner(lines, salePartner.value)
    else lines
  }

  /** All relevant lines signed gives `completed`; some gives `customer`; none leaves the state. */
  function AggregateState(state: ConnectorState, relevant: seq<Line>): (s: ConnectorState)
    ensures relevant != [] && (forall l :: l in relevant ==> l.signStatus) ==> s == StCompleted
    ensures (exists l :: l in relevant && !l.signStatus) && (exists l :: l in relevant && l.signStatus) ==>
      s == StCustomer
    ensures (forall l :: l in relevant ==> !l.signStatus) ==> s == state
  {
    if relevant != [] && forall l :: l in relevant ==> l.signStatus then
      assert relevant[0] in relevant;
      StCompleted
    else if exists l :: l in relevant && l.signStatus then StCustomer
    else state
  }

  function StatusCheck(d: ConnectorData, server: Server): (r: Result)
    ensures r.data.attachments == d.attachments && r.data.policy == d.policy && |r.data.lines| == |d.lines|
    ensures r.Ok? <==> FirstWhere(d.lines, l => StopsStatusCheck(l, server)).None?
    ensures r.Ok? ==> r.data.lines == CheckedPrefix(d.lines, |d.lines|, server)
    ensures r.Ok? ==> r.data.state == AggregateState(d.state, RelevantLines(r.data.lines, d.salePartner))
    ensures r.Err? ==> r.data.state == d.state
    ensures r.Err? ==>
      r.data.lines == CheckedPrefix(d.lines, FirstWhere(d.lines, l => StopsStatusCheck(l, server)).value, server)
  {
    var stop := FirstWhere(d.lines, l => StopsStatusCheck(l, server));
    if stop.None? then
      var lines := CheckedPrefix(d.lines, |d.lines|, server);
      Ok(d.(lines := lines, state := AggregateState(d.state, RelevantLines(lines, d.salePartner))))
    else
      var l := d.lines[stop.value];
      var lines := CheckedPrefix(d.lines, stop.value, server);
      if l.envelopeId == "" then Err(MissingEnvelopeId(l.partnerId), d.(lines := lines))
      else Err(ClientFailed, d.(lines := lines))
  }

  /** A status check without errors leaves every relevant line signed exactly when the state it sets is `completed` (given some line). */
  lemma StatusCheckCompletedIff(d: ConnectorData, server: Server)
    requires StatusCheck(d, server).Ok? && d.lines != [] && d.state != StCompleted
    ensures var r := StatusCheck(d, server).data;
            r.state == StCompleted <==> forall l :: l in RelevantLines(r.lines, d.salePartner) ==> l.signStatus
  {
    var r := StatusCheck(d, server).data;
    var rel := RelevantLines(r.lines, d.salePartner);
    assert r.lines[0] in r.lines;
    if !(salePartnerHasLines(r.lines, d.salePartner)) {
      assert rel == r.lines;
    } else {
      assert LinesOfPartner(r.lines, d.salePartner.value) != [];
      assert LinesOfPartner(r.lines, d.salePartner.value)[0] in rel;
    }
  }

  predicate salePartnerHasLines(lines: seq<Line>, salePartner: Option<nat>) {
    salePartner.Some? && LinesOfPartner(lines, salePartner.value) != []
  }

  /** A multi-signer envelope's status is a dict, which never marks a line signed. */
  lemma MultiSignerNeverChecked(l: Line, server: Server)
    requires l.envelopeId in server && |server[l.envelopeId].signers| > 1
    ensures CheckedLine(l, server) == l
  {
  }

  // ---------------------------------------------------------------------
  // The record
  // ---------------------------------------------------------------------

  /** One more line of a simultaneous download. */
  lemma DownloadedPrefixStep(lines: seq<Line>, i: nat, server: Server, base: nat)
    requires i < |lines|
    ensures DownloadedPrefix(lines, i + 1, server, base) ==
      DownloadedPrefix(lines, i, server, base)[i := DownloadedLine(lines[i], server, base + i)]
  {
  }

  /** A simultaneous download that nowhere stops. */
  lemma DownloadRunsThrough(d: ConnectorData, server: Server, base: nat)
    requires forall j :: 0 <= j < |d.lines| ==> !StopsDownload(d.lines[j], server)
    ensures DownloadSimultaneous(d, server, base) == Ok(d.(lines := DownloadedPrefix(d.lines, |d.lines|, server, base)))
  {
    assert FirstWhere(d.lines, l => StopsDownload(l, server)).None?;
  }

  /** A simultaneous download whose first stop is line `i`. */
  lemma DownloadStopsAt(d: ConnectorData, server: Server, base: nat, i: nat)
    requires i < |d.lines| && StopsDownload(d.lines[i], server)
    requires forall j :: 0 <= j < i ==> !StopsDownload(d.lines[j], server)
    ensures var lines := DownloadedPrefix(d.lines, i, server, base);
      DownloadSimultaneous(d, server, base) ==
        if d.lines[i].envelopeId == "" then Err(MissingEnvelopeId(d.lines[i].partnerId), d.(lines := lines))
        else Err(ClientFailed, d.(lines := lines))
  {
    var stop := FirstWhere(d.lines, l => StopsDownload(l, server));
    assert stop == Some(i);
  }

  /** A status check whose first stop is line `i`. */
  lemma StatusCheckStopsAt(d: ConnectorData, server: Server, i: nat)
    requires i < |d.lines| && StopsStatusCheck(d.lines[i], server)
    requires forall j :: 0 <= j < i ==> !StopsStatusCheck(d.lines[j], server)
    ensures var lines := CheckedPrefix(d.lines, i, server);
      StatusCheck(d, server) ==
        if d.lines[i].envelopeId == "" then Err(MissingEnvelopeId(d.lines[i].partnerId), d.(lines := lines))
        else Err(ClientFailed, d.(lines := lines))
  {
    var stop := FirstWhere(d.lines, l => StopsStatusCheck(l, server));
    assert stop == Some(i);
  }

  /**
   * The loop of a simultaneous `download_docs`: lines are visited in order
   * and the walk stops at the first line without envelope id or whose
   * download fails, keeping what it stored before.
   */
  method DownloadEach(d: ConnectorData, server: Server, base: nat) returns (r: Result)
    ensures r == DownloadSimultaneous(d, server, base)
  {
    var lines := d.lines;
    var i := 0;
    while i < |lines|
      invariant 0 <= i <= |lines| == |d.lines|
      invariant lines == DownloadedPrefix(d.lines, i, server, base)
      invariant forall j :: 0 <= j < i ==> !StopsDownload(d.lines[j], server)
    {
      var l := lines[i];
      assert l == d.lines[i];
      if l.envelopeId == "" {
        DownloadStopsAt(d, server, base, i);
        return Err(MissingEnvelopeId(l.partnerId), d.(lines := lines));
      }
      if l.sendStatus && !l.signStatus {
        var reply := DownloadOf(server, l.envelopeId);
        if reply.DownloadFailed? {
          DownloadStopsAt(d, server, base, i);
          return Err(ClientFailed, d.(lines := lines));
        }
        if reply.status == SingleStatus("completed") && reply.doc.Some? {
          lines := lines[i := StoredLine(l, Attachment(base + i, reply.doc.value.filename))];
        }
      }
      DownloadedPrefixStep(d.lines, i, server, base);
      i := i + 1;
    }
    DownloadRunsThrough(d, server, base);
    return Ok(d.(lines := lines));
  }

  /**
   * The loop of `status_docs`: every unsigned line asks DocuSign for its
   * status, stopping at the first line without envelope id or whose
   * request fails; then the relevant lines decide the state.
   */
  method CheckEach(d: ConnectorData, server: Server) returns (r: Result)
    ensures r == StatusCheck(d, server)
  {
    var lines := d.lines;
    var i := 0;
    while i < |lines|
      invariant 0 <= i <= |lines| == |d.lines|
      invariant lines == CheckedPrefix(d.lines, i, server)
      invariant forall j :: 0 <= j < i ==> !StopsStatusCheck(d.lines[j], server)
    {
      var l := lines[i];
      assert l == d.lines[i];
      if l.envelopeId == "" {
        StatusCheckStopsAt(d, server, i);
        return Err(MissingEnvelopeId(l.partnerId), d.(lines := lines));
      }
      if !l.signStatus {
        var status := GetStatus(server, l.envelopeId);
        if status.StatusFailed? {
          StatusCheckStopsAt(d, server, i);
          return Err(ClientFailed, d.(lines := lines));
        }
        if status == SingleStatus("completed") {
          lines := lines[i := l.(status := LCompleted, signStatus := true)];
        }
      }
      assert lines == CheckedPrefix(d.lines, i + 1, server);
      i := i + 1;
    }
    assert lines == CheckedPrefix(d.lines, |d.lines|, server);
    return Ok(d.(lines := lines, state := AggregateState(d.state, RelevantLines(lines, d.salePartner))));
  }

  // ---------------------------------------------------------------------
  // The record
  // ---------------------------------------------------------------------

  /** The write a button leaves and the error it raised, as the result describes them. */
  predicate Reflects(r: Result, err: Option<ConnError>, d: ConnectorData) {
    d == r.data && err == (if r.Err? then Some(r.error) else None)
  }

  class Connector {
    var name: string
    var state: ConnectorState
    var policy: Policy
    var attachments: seq<Attachment>
    var lines: seq<Line>
    var salePartner: Option<nat>

    function Data(): ConnectorData
      reads this
    {
      ConnectorData(state, policy, attachments, lines, salePartner)
    }

    /** `create`: a missing or `New` name takes the next sequence number; the state starts at `new`. */
    constructor (givenName: Option<string>, drawn: string, policy: Policy, attachments: seq<Attachment>,
                 lines: seq<Line>, salePartner: Option<nat>)
      ensures name == SystemName(givenName, drawn) && state == StNew
      ensures Data() == ConnectorData(StNew, policy, attachments, lines, salePartner)
    {
      name := SystemName(givenName, drawn);
      state := StNew;
      this.policy := policy;
      this.attachments := attachments;
      this.lines := lines;
      this.salePartner := salePartner;
    }

    /** Writes the data a button left. */
    method Store(r: Result) returns (err: Option<ConnError>)
      modifies this
      requires r.data.policy == policy && r.data.attachments == attachments && r.data.salePartner == salePartner
      ensures Reflects(r, err, Data()) && name == old(name)
    {
      state, lines := r.data.state, r.data.lines;
      err := if r.Err? then Some(r.error) else None;
    }

    /** `send_docs`. */
    method SendDocs(envelope: Option<string>) returns (err: Option<ConnError>)
      modifies this
      ensures Reflects(Send(old(Data()), envelope), err, Data())
      ensures name == old(name)
    {
      err := Store(Send(Data(), envelope));
    }

    /** `download_docs`: one line in sequence, every line simultaneously. */
    method DownloadDocs(server: Server, newAttachment: nat) returns (err: Option<ConnError>)
      modifies this
      ensures old(policy) == InHierarchy ==>
        Reflects(DownloadInHierarchy(old(Data()), server, newAttachment), err, Data())
      ensures old(policy) == Simultaneously ==>
        Reflects(DownloadSimultaneous(old(Data()), server, newAttachment), err, Data())
      ensures name == old(name)
    {
      if policy == InHierarchy {
        err := Store(DownloadInHierarchy(Data(), server, newAttachment));
      } else {
        var r := DownloadEach(Data(), server, newAttachment);
        err := Store(r);
      }
    }

    /** `status_docs`. */
    method StatusDocs(server: Server) returns (err: Option<ConnError>)
      modifies this
      ensures Reflects(StatusCheck(old(Data()), server), err, Data())
      ensures name == old(name) && |lines| == |old(lines)|
    {
      var r := CheckEach(Data(), server);
      err := Store(r);
    }
  }
}
