/**
 * The signature provider: dispatch of the five provider operations to the
 * backend methods named after the provider type, and the built-in demo
 * backend. Backends added by other modules are not part of this model, so
 * the backend methods that exist are the five `_demo_*` ones.
 */
module SignatureProvider {
  import opened Common
  import opened SignatureSigner

  datatype Operation = TestConnection | SendDocument | GetStatus | DownloadSigned | CancelRequest

  /** The method-name suffix of each operation. */
  function Suffix(op: Operation): string {
    match op
    case TestConnection => "test_connection"
    case SendDocument => "send_document"
    case GetStatus => "get_status"
    case DownloadSigned => "download_signed"
    case CancelRequest => "cancel"
  }

  /**
   * `_call_provider` looks up the method `_{provider_type}_{suffix}`. The
   * suffixes end in five different letters, so such a name determines both
   * the provider type and the operation; the model keeps the name as that
   * pair.
   */
  datatype BackendName = BackendName(providerType: string, suffix: string)

  function BackendMethodName(providerType: string, op: Operation): BackendName {
    BackendName(providerType, Suffix(op))
  }

  /** The backend methods the provider model defines: the five `_demo_*` methods. */
  const BackendMethods: set<BackendName> :=
    {BackendName("demo", "test_connection"), BackendName("demo", "send_document"),
     BackendName("demo", "get_status"), BackendName("demo", "download_signed"),
     BackendName("demo", "cancel")}

  /** `_get_provider_types`: the selectable provider types. */
  const ProviderTypes: seq<string> := ["demo"]

  predicate HasBackend(providerType: string, op: Operation) {
    BackendMethodName(providerType, op) in BackendMethods
  }

  /** A provider type has a backend for an operation exactly when it is `demo`. */
  lemma HasBackendIffDemo(t: string, op: Operation)
    ensures HasBackend(t, op) <==> t == "demo"
  {
  }

  lemma ListedTypesHaveBackends(op: Operation)
    ensures forall i :: 0 <= i < |ProviderTypes| ==> HasBackend(ProviderTypes[i], op)
  {
    HasBackendIffDemo("demo", op);
  }

  /**
   * `_provider_cancel`: a provider without a cancel method is logged and
   * reported as cancelled; the demo cancel also answers True. It never raises.
   */
  function ProviderCancel(providerType: string): (ok: bool)
    ensures ok
  {
    if HasBackend(providerType, CancelRequest) then DemoCancel() else true
  }

  // ---------------------------------------------------------------------
  // Connection test
  // ---------------------------------------------------------------------

  datatype TestOutcome = Notified | NoResult | ConnectionError

  /** `_provider_test_connection`: None when the dispatch raises. */
  function ProviderTestConnection(providerType: string): Option<bool>
  {
    if HasBackend(providerType, TestConnection) then Some(DemoTestConnection()) else None
  }

  /**
   * `action_test_connection`: a truthy answer gives a success notification,
   * a falsy one gives nothing, and any exception becomes a connection error.
   */
  function ActionTestConnection(providerType: string): (r: TestOutcome)
    ensures r == Notified <==> ProviderTestConnection(providerType) == Some(true)
    ensures r == ConnectionError <==> ProviderTestConnection(providerType).None?
  {
    match ProviderTestConnection(providerType)
    case None => ConnectionError
    case Some(answer) => if answer then Notified else NoResult
  }

  /** The demo provider always connects and every other type fails the test. */
  lemma TestConnectionByType(t: string)
    ensures ActionTestConnection(t) == (if t == "demo" then Notified else ConnectionError)
  {
    HasBackendIffDemo(t, TestConnection);
  }

  // ---------------------------------------------------------------------
  // The demo backend
  // ---------------------------------------------------------------------

  function DemoTestConnection(): bool { true }

  function DemoCancel(): bool { true }

  /** `_demo_download_signed`: the "signed" document is the original document. */
  function DemoDownloadSigned(documentFile: Bytes): (signed: Bytes)
    ensures signed == documentFile
  {
    documentFile
  }

  /** `_provider_download_signed`: None when the dispatch raises. */
  function ProviderDownloadSigned(providerType: string, documentFile: Bytes): (r: Option<Bytes>)
    ensures r.Some? <==> providerType == "demo"
    ensures r.Some? ==> r.value == documentFile
  {
    HasBackendIffDemo(providerType, DownloadSigned);
    if HasBackend(providerType, DownloadSigned) then Some(DemoDownloadSigned(documentFile)) else None
  }

  predicate IsUpperHex(s: string, n: nat) {
    |s| == n && forall i :: 0 <= i < |s| ==> ('0' <= s[i] <= '9' || 'A' <= s[i] <= 'F')
  }

  /** One signer's part of the provider's answer to a send. */
  datatype SendEntry = SendEntry(signerId: nat, signingUrl: string, providerSignerRef: string)

  datatype SendResult = SendResult(providerDocumentRef: string, signers: seq<SendEntry>)

  /** The demo signing link of a signer. */
  function DemoSigningUrl(baseUrl: string, token: string, signerId: nat): (url: string)
    ensures EndsWith(url, "/demo/" + token + "/" + NatToString(signerId))
  {
    var tail := "/demo/" + token + "/" + NatToString(signerId);
    var url := baseUrl + "/trasas/signature" + tail;
    assert url[|url| - |tail|..] == tail;
    url
  }

  /**
   * `_demo_send_document`: one entry per signer, in signer order, each with
   * the signer's id, its demo signing link and a `DEMO-SIGNER-` reference.
   * The random hex parts (eight digits for the document, six per signer) are
   * parameters.
   */
  method DemoSendDocument(signers: seq<Signer>, token: string, baseUrl: string,
                          docHex: string, signerHex: seq<string>) returns (res: SendResult)
    requires IsUpperHex(docHex, 8)
    requires |signerHex| == |signers| && forall i :: 0 <= i < |signerHex| ==> IsUpperHex(signerHex[i], 6)
    ensures res.providerDocumentRef == "DEMO-" + docHex
    ensures |res.signers| == |signers|
    ensures forall i :: 0 <= i < |signers| ==>
      res.signers[i] == SendEntry(signers[i].id, DemoSigningUrl(baseUrl, token, signers[i].id),
                                  "DEMO-SIGNER-" + signerHex[i])
  {
    var entries: seq<SendEntry> := [];
    var k := 0;
    while k < |signers|
      invariant 0 <= k <= |signers|
      invariant |entries| == k
      invariant forall i :: 0 <= i < k ==>
        entries[i] == SendEntry(signers[i].id, DemoSigningUrl(baseUrl, token, signers[i].id),
                                "DEMO-SIGNER-" + signerHex[i])
    {
      var s := signers[k];
      entries := entries + [SendEntry(s.id, DemoSigningUrl(baseUrl, token, s.id), "DEMO-SIGNER-" + signerHex[k])];
      k := k + 1;
    }
    res := SendResult("DEMO-" + docHex, entries);
  }

  /** The status a provider reports for one signer. */
  datatype Reported = ReportedSigned | ReportedRefused | ReportedOther(tag: string)

  datatype StatusEntry = StatusEntry(providerSignerRef: Option<string>, status: Reported, signedDate: Option<Instant>)

  datatype RequestStatus = Pending | CompletedStatus | CancelledStatus

  datatype StatusResult = StatusResult(requestStatus: RequestStatus, signers: seq<StatusEntry>)

  predicate AllSigned(ss: seq<Signer>) {
    forall i :: 0 <= i < |ss| ==> ss[i].state == Signed
  }

  /** The demo backend's view of one signer. */
  function DemoEntry(s: Signer): StatusEntry {
    StatusEntry(s.providerRef, if s.state == Signed then ReportedSigned else ReportedOther("waiting"), s.signedDate)
  }

  function DemoEntries(ss: seq<Signer>): (es: seq<StatusEntry>)
    ensures |es| == |ss| && forall i :: 0 <= i < |ss| ==> es[i] == DemoEntry(ss[i])
  {
    seq(|ss|, i requires 0 <= i < |ss| => DemoEntry(ss[i]))
  }

  /**
   * `_demo_get_status`: each signer is reported signed if it is signed and
   * waiting otherwise; the request is completed exactly when there are
   * signers and all of them are signed.
   */
  method DemoGetStatus(signers: seq<Signer>) returns (res: StatusResult)
    ensures res.signers == DemoEntries(signers)
    ensures res.requestStatus == CompletedStatus <==> signers != [] && AllSigned(signers)
    ensures res.requestStatus != CompletedStatus ==> res.requestStatus == Pending
  {
    var entries: seq<StatusEntry> := [];
    var allSigned := true;
    var k := 0;
    while k < |signers|
      invariant 0 <= k <= |signers|
      invariant entries == DemoEntries(signers[..k])
      invariant allSigned <==> AllSigned(signers[..k])
    {
      var s := signers[k];
      var isSigned := s.state == Signed;
      if !isSigned {
        allSigned := false;
      }
      entries := entries + [StatusEntry(s.providerRef, if isSigned then ReportedSigned else ReportedOther("waiting"), s.signedDate)];
      assert signers[..k + 1] == signers[..k] + [s];
      k := k + 1;
    }
    assert signers[..k] == signers;
    var status := if allSigned && signers != [] then CompletedStatus else Pending;
    res := StatusResult(status, entries);
  }
}
