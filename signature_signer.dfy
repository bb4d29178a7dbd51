/**
 * A signer of a digital-signature request. Signers belong to their request
 * (they are deleted with it), so the model keeps them as values inside the
 * request, in the record order `sign_order, id`.
 */
module SignatureSigner {
  import opened Common

  datatype SignerState = Waiting | Sent | Signed | Refused

  datatype Role = Internal | External

  datatype Partner = Partner(name: string, email: string)

  /**
   * `signing_url` and `provider_signer_ref` are None until the provider
   * writes them; a partner name or email that is unset is "".
   */
  datatype Signer = Signer(
    id: nat,
    role: Role,
    signOrder: int,
    signerName: string,
    signerEmail: string,
    partner: Option<Partner>,
    state: SignerState,
    signingUrl: Option<string>,
    signedDate: Option<Instant>,
    providerRef: Option<string>)

  /** A smaller `sign_order` signs first. */
  const DefaultSignOrder: int := 10

  /** A freshly created signer: waiting, with no provider data yet. */
  function NewSigner(id: nat, role: Role, name: string, email: string,
                     partner: Option<Partner>, order: Option<int>): (s: Signer)
    ensures s.id == id && s.role == role && s.signerName == name && s.signerEmail == email
    ensures s.state == Waiting
    ensures s.signOrder == if order.Some? then order.value else DefaultSignOrder
    ensures s.signingUrl.None? && s.signedDate.None? && s.providerRef.None?
  {
    Signer(id, role, if order.Some? then order.value else DefaultSignOrder, name, email,
           partner, Waiting, None, None, None)
  }

  /** The record order `sign_order, id`. */
  predicate Precedes(a: Signer, b: Signer) {
    a.signOrder < b.signOrder || (a.signOrder == b.signOrder && a.id < b.id)
  }

  predicate InSignOrder(ss: seq<Signer>) {
    forall i, j :: 0 <= i < j < |ss| ==> Precedes(ss[i], ss[j])
  }

  /** Record ids are unique. */
  predicate DistinctIds(ss: seq<Signer>) {
    forall i, j :: 0 <= i < |ss| && 0 <= j < |ss| && i != j ==> ss[i].id != ss[j].id
  }

  /** The signers of one request: distinct records kept in record order. */
  predicate WellFormed(ss: seq<Signer>) {
    InSignOrder(ss) && DistinctIds(ss)
  }

  /** Changing a signer's state or provider data keeps the signers well formed. */
  lemma WellFormedUpdate(ss: seq<Signer>, k: int, s: Signer)
    requires WellFormed(ss) && 0 <= k < |ss|
    requires s.id == ss[k].id && s.signOrder == ss[k].signOrder
    ensures WellFormed(ss[k := s])
  {
    var ts := ss[k := s];
    forall i, j | 0 <= i < j < |ts| ensures Precedes(ts[i], ts[j]) {
      assert Precedes(ss[i], ss[j]);
    }
    forall i, j | 0 <= i < |ts| && 0 <= j < |ts| && i != j ensures ts[i].id != ts[j].id {
      assert ss[i].id != ss[j].id;
    }
  }

  /** `_onchange_partner_id`: choosing a partner copies its name and email. */
  function OnchangePartner(s: Signer): (r: Signer)
    ensures s.partner.Some? ==>
      r == s.(signerName := s.partner.value.name, signerEmail := s.partner.value.email)
    ensures s.partner.None? ==> r == s
  {
    match s.partner
    case Some(p) => s.(signerName := p.name, signerEmail := p.email)
    case None => s
  }

  /** The onchange leaves everything but the name and email alone, and running it twice changes nothing more. */
  lemma OnchangePartnerIdempotent(s: Signer)
    ensures OnchangePartner(OnchangePartner(s)) == OnchangePartner(s)
    ensures OnchangePartner(s).(signerName := s.signerName, signerEmail := s.signerEmail) == s
  {
  }
}
