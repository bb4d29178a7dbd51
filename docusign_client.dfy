/**
 * The DocuSign REST client (`docu_client.py`), reduced to what it decides
 * locally: which configuration applies, which e-mail a recipient is sent
 * to, how the signer payload is built, when a response counts as a
 * success, and what `get_status` / `download_documents` return for the
 * envelope the server reports. The HTTP exchange itself is left out: the
 * server is a map from envelope id to what it would answer, and an
 * envelope missing from it stands for any failed request (bad
 * configuration, missing token, non-200 answer), all of which the client
 * turns into a ValidationError.
 */
module DocusignClient {
  import opened Common

  // ---------------------------------------------------------------------
  // Configuration (`_get_docusign_config`)
  // ---------------------------------------------------------------------

  /** `ir.config_parameter.get_param(key)`: the stored value, or "" (False) when unset. */
  function Param(params: map<string, string>, key: string): string {
    if key in params then params[key] else ""
  }

  /** The environment setting; `get_param` gives its default `demo` when the value is unset or empty. */
  function EnvironmentOf(params: map<string, string>): (env: string)
    ensures env != ""
    ensures "docusign.environment" !in params || params["docusign.environment"] == "" ==> env == "demo"
    ensures env != "demo" ==> "docusign.environment" in params && env == params["docusign.environment"]
  {
    if "docusign.environment" in params && params["docusign.environment"] != "" then params["docusign.environment"]
    else "demo"
  }

  /** The key prefix: `prod` for the production environment and `demo` for anything else. */
  function ConfigPrefix(environment: string): (p: string)
    ensures p == "prod" <==> environment == "production"
    ensures p == "demo" <==> environment != "production"
  {
    if environment == "production" then "prod" else "demo"
  }

  datatype Config = Config(baseUri: string, accountId: string, userGuid: string, integrationKey: string,
                           secretKey: string, environment: string, testEmail: string)

  datatype ConfigResult = Configured(config: Config) | NotConfigured

  function GetConfig(params: map<string, string>): (r: ConfigResult)
    ensures r.Configured? <==>
      (Param(params, "docusign." + ConfigPrefix(EnvironmentOf(params)) + "_base_uri") != "" &&
       Param(params, "docusign." + ConfigPrefix(EnvironmentOf(params)) + "_account_id") != "")
    ensures r.Configured? ==> r.config.environment == EnvironmentOf(params)
    ensures r.Configured? ==>
      r.config.baseUri == Param(params, "docusign." + ConfigPrefix(EnvironmentOf(params)) + "_base_uri")
    ensures r.Configured? ==>
      r.config.accountId == Param(params, "docusign." + ConfigPrefix(EnvironmentOf(params)) + "_account_id")
    ensures r.Configured? && EnvironmentOf(params) == "demo" ==>
      r.config.testEmail == Param(params, "docusign.demo_test_email")
    ensures r.Configured? && EnvironmentOf(params) != "demo" ==> r.config.testEmail == ""
  {
    var environment := EnvironmentOf(params);
    var prefix := ConfigPrefix(environment);
    var baseUri := Param(params, "docusign." + prefix + "_base_uri");
    var accountId := Param(params, "docusign." + prefix + "_account_id");
    var testEmail := if environment == "demo" then Param(params, "docusign.demo_test_email") else "";
    if baseUri == "" || accountId == "" then NotConfigured
    else Configured(Config(baseUri, accountId, Param(params, "docusign." + prefix + "_user_guid"),
                           Param(params, "docusign." + prefix + "_integration_key"),
                           Param(params, "docusign." + prefix + "_secret_key"), environment, testEmail))
  }

  /** The production and the demo settings never share a key. */
  lemma PrefixesSeparateKeys(suffix: string)
    ensures "docusign." + ConfigPrefix("production") + suffix != "docusign." + ConfigPrefix("demo") + suffix
  {
    var p := "docusign." + ConfigPrefix("production") + suffix;
    var d := "docusign." + ConfigPrefix("demo") + suffix;
    assert p[9] == 'p' && d[9] == 'd';
  }

  // ---------------------------------------------------------------------
  // Recipient e-mail (`_mask_email_for_environment`)
  // ---------------------------------------------------------------------

  /** In the demo environment with a test inbox configured, every recipient is sent to that inbox. */
  function MaskEmail(config: Config, email: string): (r: string)
    ensures config.environment == "demo" && config.testEmail != "" ==> r == config.testEmail
    ensures !(config.environment == "demo" && config.testEmail != "") ==> r == email
  {
    if config.environment == "demo" && config.testEmail != "" then config.testEmail else email
  }

  // ---------------------------------------------------------------------
  // Signer payload (`send_docusign_envelope_multiple_signers`)
  // ---------------------------------------------------------------------

  datatype Phone = Phone(countryCode: string, number: string)

  /** A signer as handed to the client; `partnerLang` is "" when there is no partner or no language. */
  datatype SignerIn = SignerIn(name: string, email: string, recipientId: string, routingOrder: string,
                               deliveryMethod: string, clientUserId: string, partnerLang: string,
                               phone: Option<Phone>)

  /** One entry of the `signers` array sent to DocuSign. */
  datatype SignerData = SignerData(name: string, email: string, recipientId: string, routingOrder: string,
                                   deliveryMethod: string, clientUserId: Option<string>,
                                   phoneNumber: Option<Phone>, languageCode: string,
                                   signHereAnchor: string, stampTab: bool)

  /** The recipient language: the first two characters of the partner's language, `es` otherwise. */
  function LanguageCode(partnerLang: string): (code: string)
    ensures |partnerLang| >= 2 ==> code == partnerLang[..2]
    ensures |partnerLang| < 2 ==> code == "es"
    ensures |code| == 2
  {
    if |partnerLang| >= 2 then partnerLang[..2] else "es"
  }

  predicate IsWhatsApp(s: SignerIn) {
    Lower(s.deliveryMethod) == "whatsapp"
  }

  /** A WhatsApp signer needs a phone number. */
  predicate PhoneUsable(s: SignerIn) {
    !(IsWhatsApp(s) && s.phone.None?)
  }

  /** The anchor string of the sign-here tab of the signer at position `i` (counted from 0). */
  function SignAnchor(i: nat): string {
    "/sn" + NatToString(i + 1) + "/"
  }

  lemma AnchorsDistinct(i: nat, j: nat)
    requires i != j
    ensures SignAnchor(i) != SignAnchor(j)
  {
    if SignAnchor(i) == SignAnchor(j) {
      var a := SignAnchor(i);
      assert a[3..|a| - 1] == NatToString(i + 1);
      assert SignAnchor(j)[3..|SignAnchor(j)| - 1] == NatToString(j + 1);
      NatToStringInjective(i + 1, j + 1);
    }
  }

  /** The payload entry of signer `s` at position `i`; `stamp` says whether it carries the company stamp tab. */
  function SignerEntry(config: Config, s: SignerIn, i: nat, stamp: bool): (e: SignerData)
    ensures e.signHereAnchor == SignAnchor(i) && e.stampTab == stamp
  {
    SignerData(s.name, MaskEmail(config, s.email), s.recipientId, s.routingOrder,
               if IsWhatsApp(s) then "WhatsApp" else s.deliveryMethod,
               if s.clientUserId != "" then Some(s.clientUserId) else None,
               if IsWhatsApp(s) then s.phone else None,
               LanguageCode(s.partnerLang), SignAnchor(i), stamp)
  }

  /** The entries of the first `n` signers, none of them stamped yet. */
  function UnstampedEntries(config: Config, signers: seq<SignerIn>, n: nat): (r: seq<SignerData>)
    requires n <= |signers|
    ensures |r| == n
    ensures forall i :: 0 <= i < n ==> r[i] == SignerEntry(config, signers[i], i, false)
  {
    seq(n, i requires 0 <= i < n => SignerEntry(config, signers[i], i, false))
  }

  lemma UnstampedEntriesStep(config: Config, signers: seq<SignerIn>, n: nat)
    requires n < |signers|
    ensures UnstampedEntries(config, signers, n + 1) ==
      UnstampedEntries(config, signers, n) + [SignerEntry(config, signers[n], n, false)]
  {
  }

  /** Adding the stamp tab to an entry gives the stamped entry. */
  lemma StampedEntry(config: Config, s: SignerIn, i: nat)
    ensures SignerEntry(config, s, i, false).(stampTab := true) == SignerEntry(config, s, i, true)
  {
  }

  /**
   * Builds the signers array. A WhatsApp signer without a phone number
   * makes the call fail (the source dereferences the missing number).
   * The company stamp tab goes to the last signer only, and only when a
   * stamp is configured.
   */
  method BuildSigners(config: Config, signers: seq<SignerIn>, stampConfigured: bool)
    returns (r: Option<seq<SignerData>>)
    ensures r.None? <==> exists i :: 0 <= i < |signers| && IsWhatsApp(signers[i]) && signers[i].phone.None?
    ensures r.Some? ==> |r.value| == |signers|
    ensures r.Some? ==> forall i :: 0 <= i < |signers| ==>
      r.value[i] == SignerEntry(config, signers[i], i, stampConfigured && i == |signers| - 1)
    ensures r.Some? ==> forall i :: 0 <= i < |signers| ==> r.value[i].signHereAnchor == SignAnchor(i)
    ensures r.Some? ==> forall i :: 0 <= i < |signers| && r.value[i].stampTab ==>
      stampConfigured && i == |signers| - 1
  {
    var arr: seq<SignerData> := [];
    var k := 0;
    while k < |signers|
      invariant 0 <= k <= |signers|
      invariant |arr| == k
      invariant forall i :: 0 <= i < k ==> PhoneUsable(signers[i])
      invariant arr == UnstampedEntries(config, signers, k)
    {
      var s := signers[k];
      if !PhoneUsable(s) {
        return None;
      }
      UnstampedEntriesStep(config, signers, k);
      arr := arr + [SignerEntry(config, s, k, false)];
      k := k + 1;
    }
    if stampConfigured && arr != [] {
      var last := arr[|arr| - 1];
      StampedEntry(config, signers[|arr| - 1], |arr| - 1);
      arr := arr[|arr| - 1 := last.(stampTab := true)];
    }
    return Some(arr);
  }

  // ---------------------------------------------------------------------
  // Responses
  // ---------------------------------------------------------------------

  /** Any 2xx status is a success. */
  predicate IsSuccess(status: int) {
    200 <= status < 300
  }

  datatype SendReply = EnvelopeCreated(envelopeId: Option<string>) | SendRejected(text: string)

  /**
   * The answer to the envelope POST: a non-2xx status is refused with the
   * response text; a 2xx one yields the `envelopeId` of the body, if the
   * body has one (a 204 has none).
   */
  function SendOutcome(status: int, text: string, bodyEnvelopeId: Option<string>): (r: SendReply)
    ensures r.SendRejected? <==> !(200 <= status < 300)
    ensures r.SendRejected? ==> r.text == text
    ensures r.EnvelopeCreated? ==> r.envelopeId == bodyEnvelopeId
  {
    if !IsSuccess(status) then SendRejected(text) else EnvelopeCreated(bodyEnvelopeId)
  }

  // ---------------------------------------------------------------------
  // The server's view of an envelope
  // ---------------------------------------------------------------------

  /** A recipient of the envelope as the recipients endpoint lists it ("" for a missing e-mail). */
  datatype RemoteSigner = RemoteSigner(email: string, status: Option<string>)

  /** An entry of `envelopeDocuments`. */
  datatype EnvelopeDoc = EnvelopeDoc(name: Option<string>, uri: Option<string>)

  /**
   * What the server answers about one envelope: its signers, its
   * document list (None when the key is absent) and the content of the
   * first document (None when that download fails).
   */
  datatype Envelope = Envelope(signers: seq<RemoteSigner>, documents: Option<seq<EnvelopeDoc>>,
                               content: Option<Bytes>)

  type Server = map<string, Envelope>

  // ---------------------------------------------------------------------
  // `get_status`
  // ---------------------------------------------------------------------

  /** `get_status`: a failure, `unknown` with no signers, one status string, or a dict keyed by e-mail. */
  datatype StatusReply = StatusFailed | StatusUnknown | SingleStatus(status: string)
                       | StatusByEmail(byEmail: map<string, string>)

  function SignerStatus(s: RemoteSigner): string {
    if s.status.Some? then s.status.value else "unknown"
  }

  /** The dict of statuses keyed by lower-cased e-mail, filled in signer order (a later signer wins). */
  function StatusMap(signers: seq<RemoteSigner>): map<string, string>
    decreases |signers|
  {
    if signers == [] then map[]
    else StatusMap(signers[..|signers| - 1])[Lower(signers[|signers| - 1].email) := SignerStatus(signers[|signers| - 1])]
  }

  /** The keys of the dict are exactly the lower-cased e-mails of the signers. */
  lemma {:induction false} StatusMapKeys(signers: seq<RemoteSigner>, key: string)
    ensures key in StatusMap(signers) <==> exists i :: 0 <= i < |signers| && Lower(signers[i].email) == key
    decreases |signers|
  {
    if signers != [] {
      var init := signers[..|signers| - 1];
      StatusMapKeys(init, key);
      if key in StatusMap(init) {
        var i :| 0 <= i < |init| && Lower(init[i].email) == key;
        assert signers[i] == init[i];
      }
      if exists i :: 0 <= i < |signers| && Lower(signers[i].email) == key {
        var i :| 0 <= i < |signers| && Lower(signers[i].email) == key;
        if i < |init| {
          assert init[i] == signers[i];
        }
      }
    }
  }

  /** Each key maps to the status of the LAST signer with that e-mail. */
  lemma {:induction false} StatusMapLastWins(signers: seq<RemoteSigner>, j: nat)
    requires j < |signers|
    requires forall i :: j < i < |signers| ==> Lower(signers[i].email) != Lower(signers[j].email)
    ensures Lower(signers[j].email) in StatusMap(signers)
    ensures StatusMap(signers)[Lower(signers[j].email)] == SignerStatus(signers[j])
    decreases |signers|
  {
    if j < |signers| - 1 {
      var init := signers[..|signers| - 1];
      assert init[j] == signers[j];
      forall i | j < i < |init|
        ensures Lower(init[i].email) != Lower(init[j].email)
      {
        assert init[i] == signers[i];
      }
      StatusMapLastWins(init, j);
    }
  }

  /** The specification of `get_status` for one envelope. */
  function StatusOf(server: Server, envelopeId: string): (r: StatusReply)
    ensures envelopeId !in server <==> r.StatusFailed?
    ensures envelopeId in server && server[envelopeId].signers == [] ==> r.StatusUnknown?
    ensures envelopeId in server && |server[envelopeId].signers| == 1 ==>
      r == SingleStatus(SignerStatus(server[envelopeId].signers[0]))
    ensures envelopeId in server && |server[envelopeId].signers| > 1 ==>
      r == StatusByEmail(StatusMap(server[envelopeId].signers))
  {
    if envelopeId !in server then StatusFailed
    else
      var signers := server[envelopeId].signers;
      if signers == [] then StatusUnknown
      else if |signers| == 1 then SingleStatus(SignerStatus(signers[0]))
      else StatusByEmail(StatusMap(signers))
  }

  /** `get_status`: the per-signer dict is filled by a loop over the signers. */
  method GetStatus(server: Server, envelopeId: string) returns (r: StatusReply)
    ensures r == StatusOf(server, envelopeId)
  {
    if envelopeId !in server {
      return StatusFailed;
    }
    var signers := server[envelopeId].signers;
    if signers == [] {
      return StatusUnknown;
    }
    var statuses: map<string, string> := map[];
    var k := 0;
    while k < |signers|
      invariant 0 <= k <= |signers|
      invariant statuses == StatusMap(signers[..k])
    {
      assert signers[..k + 1][..k] == signers[..k];
      statuses := statuses[Lower(signers[k].email) := SignerStatus(signers[k])];
      k := k + 1;
    }
    assert signers[..k] == signers;
    if |signers| == 1 {
      return SingleStatus(SignerStatus(signers[0]));
    }
    return StatusByEmail(statuses);
  }

  /** `download_documents` proceeds only when the status is, or all statuses are, `completed`. */
  predicate AllCompleted(r: StatusReply) {
    match r
    case SingleStatus(s) => s == "completed"
    case StatusByEmail(m) => forall k :: k in m ==> m[k] == "completed"
    case _ => false
  }

  // ---------------------------------------------------------------------
  // `download_documents`
  // ---------------------------------------------------------------------

  datatype DocData = DocData(filename: string, content: Bytes, mimetype: string)

  /** A failure (any ValidationError), or the status with the document when one was fetched. */
  datatype DownloadReply = DownloadFailed | Fetched(status: StatusReply, doc: Option<DocData>)

  /** The mimetype guessed from the file name; PDF unless it ends with `.docx` or `.doc`. */
  function Mimetype(filename: string): (m: string)
    ensures EndsWith(filename, ".pdf") ==> m == "application/pdf"
    ensures !EndsWith(filename, ".pdf") && EndsWith(filename, ".docx") ==>
      m == "application/vnd.openxmlformats-officedocument.wordprocessingml.document"
    ensures !EndsWith(filename, ".pdf") && !EndsWith(filename, ".docx") && EndsWith(filename, ".doc") ==>
      m == "application/msword"
    ensures !EndsWith(filename, ".pdf") && !EndsWith(filename, ".docx") && !EndsWith(filename, ".doc") ==>
      m == "application/pdf"
  {
    if EndsWith(filename, ".pdf") then "application/pdf"
    else if EndsWith(filename, ".docx") then "application/vnd.openxmlformats-officedocument.wordprocessingml.document"
    else if EndsWith(filename, ".doc") then "application/msword"
    else "application/pdf"
  }

  /**
   * The document the client downloads: the first entry of the list, taken
   * only when the list has MORE than one entry (a one-entry list counts as
   * no document at all).
   */
  function PickDocument(docs: seq<EnvelopeDoc>): (d: Option<EnvelopeDoc>)
    ensures d.Some? <==> |docs| > 1
    ensures d.Some? ==> d.value == docs[0]
  {
    if |docs| > 1 then Some(docs[0]) else None
  }

  function DownloadOf(server: Server, envelopeId: string): (r: DownloadReply)
    ensures StatusOf(server, envelopeId).StatusFailed? ==> r.DownloadFailed?
    ensures !StatusOf(server, envelopeId).StatusFailed? && !AllCompleted(StatusOf(server, envelopeId)) ==>
      r == Fetched(StatusOf(server, envelopeId), None)
    ensures r.Fetched? && r.doc.Some? ==> AllCompleted(r.status) && r.status == StatusOf(server, envelopeId)
    ensures r.Fetched? && r.doc.Some? ==>
      server[envelopeId].documents.Some? && |server[envelopeId].documents.value| > 1 &&
      server[envelopeId].content.Some? &&
      r.doc.value.content == server[envelopeId].content.value
    ensures (AllCompleted(StatusOf(server, envelopeId)) && server[envelopeId].documents.Some? &&
             |server[envelopeId].documents.value| <= 1) ==> r.DownloadFailed?
    ensures r.Fetched? && r.doc.Some? ==>
      server[envelopeId].documents.Some? && |server[envelopeId].documents.value| > 1 &&
      var doc := server[envelopeId].documents.value[0];
      r.doc.value.filename == (if doc.name.Some? then doc.name.value else "signed_document.pdf") &&
      r.doc.value.mimetype == Mimetype(r.doc.value.filename)
    ensures !StatusOf(server, envelopeId).StatusFailed? && AllCompleted(StatusOf(server, envelopeId)) &&
            envelopeId in server ==>
      var e := server[envelopeId];
      (e.documents.Some? && |e.documents.value| > 1 && e.documents.value[0].uri.Some? && e.content.Some? ==>
         r.Fetched? && r.doc.Some? && r.status == StatusOf(server, envelopeId)) &&
      (e.documents.None? || |e.documents.value| <= 1 || e.documents.value[0].uri.None? || e.content.None? ==>
         r.DownloadFailed?)
  {
    var status := StatusOf(server, envelopeId);
    if status.StatusFailed? then DownloadFailed
    else if !AllCompleted(status) then Fetched(status, None)
    else
      var e := server[envelopeId];
      if e.documents.None? then DownloadFailed
      else
        var picked := PickDocument(e.documents.value);
        if picked.None? || picked.value.uri.None? || e.content.None? then DownloadFailed
        else
          var filename := if picked.value.name.Some? then picked.value.name.value else "signed_document.pdf";
          Fetched(status, Some(DocData(filename, e.content.value, Mimetype(filename))))
  }
}
