/**
 * The legal documents attached to an asset: certificates, permits,
 * invoices, warranties and licences, each with an optional validity date
 * and a validity state that the asset cron moves on.
 */
module AssetLegalDocument {
  import opened Common

  /** The document types, grouped by the asset group they suit. */
  datatype DocumentType =
    // buildings and land
    | LandUseCertificate | BuildingPermit | PremisesLease | WorksAcceptance
    // machinery
    | OwnershipCertificate | Invoice | MachineWarranty | EquipmentLease | Acceptance
    // office equipment
    | SalesInvoice | OfficeWarranty | OfficeEquipmentLease | AssetInsurance
    // intangible assets
    | IpCertificate | SoftwareLicence | IpTransfer | SoftwareCopyright
    | Other

  /** The selection label of each type. */
  function TypeLabel(t: DocumentType): (text: string)
    ensures text != ""
  {
    match t
    case LandUseCertificate => "Chứng nhận QSDĐ & sở hữu nhà"
    case BuildingPermit => "Giấy phép xây dựng"
    case PremisesLease => "HĐ thuê nhà / mặt bằng / kho bãi"
    case WorksAcceptance => "Biên bản nghiệm thu công trình"
    case OwnershipCertificate => "Chứng nhận sở hữu tài sản"
    case Invoice => "Hóa đơn"
    case MachineWarranty => "Giấy tờ bảo hành (Máy móc)"
    case EquipmentLease => "Hợp đồng thuê thiết bị"
    case Acceptance => "Biên bản nghiệm thu"
    case SalesInvoice => "Hóa đơn mua bán"
    case OfficeWarranty => "Giấy tờ bảo hành (Văn phòng)"
    case OfficeEquipmentLease => "HĐ thuê thiết bị văn phòng"
    case AssetInsurance => "Giấy tờ bảo hiểm tài sản"
    case IpCertificate => "Giấy chứng nhận sở hữu trí tuệ"
    case SoftwareLicence => "Giấy phép sử dụng phần mềm"
    case IpTransfer => "HĐ chuyển nhượng quyền SHTT"
    case SoftwareCopyright => "Giấy bảo vệ bản quyền phần mềm"
    case Other => "Khác"
  }

  datatype DocState = Active | ExpiringSoon | Expired | Revoked

  /** The name the type onchange leaves: an empty name takes the label of any type but `other`. */
  function NameAfterTypeChange(t: DocumentType, name: string): (n: string)
    ensures name != "" ==> n == name
    ensures name == "" && t != Other ==> n == TypeLabel(t)
    ensures t == Other ==> n == name
  {
    if t != Other && name == "" then TypeLabel(t) else name
  }

  /** Running the onchange twice gives what running it once gives. */
  lemma NameAfterTypeChangeIdempotent(t: DocumentType, name: string)
    ensures NameAfterTypeChange(t, NameAfterTypeChange(t, name)) == NameAfterTypeChange(t, name)
  {
  }

  class LegalDocument {
    const assetId: nat
    var sequence: int
    var documentType: DocumentType
    var name: string
    var certificateNumber: string
    var validityDate: Option<Day>
    var daysToExpire: int
    var state: DocState

    /** A new document with the field defaults (type `other`, state active, sequence 10) and its stored days to expiry as of today. */
    constructor (assetId: nat, name: string, validityDate: Option<Day>, today: Day)
      ensures this.assetId == assetId && this.name == name && this.validityDate == validityDate
      ensures sequence == 10 && documentType == Other && state == Active
      ensures certificateNumber == "" && daysToExpire == DaysToExpire(validityDate, today)
    {
      this.assetId := assetId;
      sequence := 10;
      documentType := Other;
      this.name := name;
      certificateNumber := "";
      this.validityDate := validityDate;
      daysToExpire := DaysToExpire(validityDate, today);
      state := Active;
    }

    /** `_onchange_document_type`: fills an empty name from the chosen type's label. */
    method OnchangeDocumentType()
      modifies this`name
      ensures name == NameAfterTypeChange(documentType, old(name))
    {
      if documentType != Other {
        var typeLabel := TypeLabel(documentType);
        if name == "" {
          name := typeLabel;
        }
      }
    }
  }

  /** `_compute_days_to_expire` over a record set. */
  method ComputeDaysToExpire(docs: seq<LegalDocument>, today: Day)
    modifies (set d | d in docs)`daysToExpire
    ensures forall d :: d in docs ==> d.daysToExpire == DaysToExpire(d.validityDate, today)
  {
    var k := 0;
    while k < |docs|
      invariant 0 <= k <= |docs|
      invariant forall d :: d in docs[..k] ==> d.daysToExpire == DaysToExpire(d.validityDate, today)
    {
      var rec := docs[k];
      if rec.validityDate.Some? {
        rec.daysToExpire := rec.validityDate.value - today;
      } else {
        rec.daysToExpire := 0;
      }
      assert docs[..k + 1] == docs[..k] + [rec];
      k := k + 1;
    }
    assert docs[..k] == docs;
  }
}
