/**
 * The legal documents of a vehicle (registration, inspection, insurance,
 * ...). Their attachments are re-pointed at the vehicle so that the
 * vehicle's documents button finds them.
 */
module FleetLegalDocument {
  import opened Common

  datatype FleetDocType =
    | Registration | Inspection | Insurance | LicensePlate | Ownership
    | Customs | RepairRecord | Accident | OtherDoc

  function FleetTypeLabel(t: FleetDocType): (text: string)
    ensures text != ""
  {
    match t
    case Registration => "Giấy đăng ký xe"
    case Inspection => "Phiếu đăng kiểm"
    case Insurance => "Bảo hiểm xe"
    case LicensePlate => "Giấy tờ biển số"
    case Ownership => "Chứng nhận sở hữu"
    case Customs => "Chứng từ hải quan / nhập khẩu"
    case RepairRecord => "Biên bản sửa chữa / bảo dưỡng"
    case Accident => "Biên bản tai nạn / xử lý"
    case OtherDoc => "Khác"
  }

  datatype FleetDocState = DocActive | DocExpiringSoon | DocExpired | DocRevoked

  /** The name the type onchange leaves: an empty name takes the label of any type but `other`. */
  function FleetNameAfterTypeChange(t: FleetDocType, name: string): (n: string)
    ensures name != "" ==> n == name
    ensures name == "" && t != OtherDoc ==> n == FleetTypeLabel(t)
    ensures t == OtherDoc ==> n == name
  {
    if t != OtherDoc && name == "" then FleetTypeLabel(t) else name
  }

  /** An `ir.attachment`, reduced to the record it is filed under. */
  class Attachment {
    var resModel: string
    var resId: Option<nat>

    constructor (resModel: string, resId: Option<nat>)
      ensures this.resModel == resModel && this.resId == resId
    {
      this.resModel := resModel;
      this.resId := resId;
    }
  }

  /** What the vehicle's readiness check reads of one of its documents. */
  datatype DocView = DocView(documentType: FleetDocType, hasAttachments: bool, validityDate: Option<Day>)

  class FleetDocument {
    var documentType: FleetDocType
    var name: string
    var vehicleId: Option<nat>
    var validityDate: Option<Day>
    var daysToExpire: int
    var state: FleetDocState
    var attachments: seq<Attachment>

    function View(): DocView
      reads this
    {
      DocView(documentType, attachments != [], validityDate)
    }

    /** A new document: the given values, state active, `days_to_expire` computed. */
    constructor (documentType: FleetDocType, name: string, vehicleId: Option<nat>, validityDate: Option<Day>,
                 attachments: seq<Attachment>, today: Day)
      ensures this.documentType == documentType && this.name == name && this.vehicleId == vehicleId
      ensures this.validityDate == validityDate && this.attachments == attachments
      ensures state == DocActive && daysToExpire == DaysToExpire(validityDate, today)
    {
      this.documentType := documentType;
      this.name := name;
      this.vehicleId := vehicleId;
      this.validityDate := validityDate;
      this.attachments := attachments;
      state := DocActive;
      daysToExpire := if validityDate.Some? then validityDate.value - today else 0;
    }

    /** `_onchange_document_type`. */
    method OnchangeDocumentType()
      modifies this`name
      ensures name == FleetNameAfterTypeChange(documentType, old(name))
    {
      if documentType != OtherDoc {
        var typeLabel := FleetTypeLabel(documentType);
        if name == "" {
          name := typeLabel;
        }
      }
    }

    /**
     * `_sync_attachments_to_vehicle` for this document: with a vehicle and
     * attachments, every attachment is filed under the vehicle.
     */
    method SyncAttachmentsToVehicle()
      modifies set a | a in attachments
      ensures vehicleId.Some? ==> forall a :: a in attachments ==> a.resModel == "fleet.vehicle" && a.resId == vehicleId
      ensures vehicleId.None? ==> forall a :: a in attachments ==> unchanged(a)
    {
      if vehicleId.Some? && attachments != [] {
        var k := 0;
        while k < |attachments|
          invariant 0 <= k <= |attachments|
          invariant forall a :: a in attachments[..k] ==> a.resModel == "fleet.vehicle" && a.resId == vehicleId
        {
          var a := attachments[k];
          a.resModel := "fleet.vehicle";
          a.resId := vehicleId;
          assert attachments[..k + 1] == attachments[..k] + [a];
          k := k + 1;
        }
        assert attachments[..k] == attachments;
      }
    }

    /**
     * `write`: the given fields change (a new validity recomputes
     * `days_to_expire`), and the attachments are re-filed only when the
     * attachments or the vehicle are among the written fields.
     */
    method Write(newAttachments: Option<seq<Attachment>>, newVehicle: Option<Option<nat>>,
                 newValidity: Option<Option<Day>>, today: Day)
      modifies this, set a | a in attachments
      modifies if newAttachments.Some? then set a | a in newAttachments.value else {}
      ensures attachments == (if newAttachments.Some? then newAttachments.value else old(attachments))
      ensures vehicleId == (if newVehicle.Some? then newVehicle.value else old(vehicleId))
      ensures validityDate == (if newValidity.Some? then newValidity.value else old(validityDate))
      ensures daysToExpire == (if newValidity.Some? then DaysToExpire(validityDate, today) else old(daysToExpire))
      ensures documentType == old(documentType) && name == old(name) && state == old(state)
      ensures (newAttachments.Some? || newVehicle.Some?) && vehicleId.Some? ==>
        (forall a :: a in attachments ==> a.resModel == "fleet.vehicle" && a.resId == vehicleId)
      ensures newAttachments.None? && newVehicle.None? ==> forall a :: a in attachments ==> unchanged(a)
      ensures vehicleId.None? ==> forall a :: a in attachments ==> unchanged(a)
      ensures forall a :: a in old(attachments) && a !in attachments ==> unchanged(a)
    {
      if newAttachments.Some? {
        attachments := newAttachments.value;
      }
      if newVehicle.Some? {
        vehicleId := newVehicle.value;
      }
      if newValidity.Some? {
        validityDate := newValidity.value;
        daysToExpire := DaysToExpire(validityDate, today);
      }
      if newAttachments.Some? || newVehicle.Some? {
        SyncAttachmentsToVehicle();
      }
    }
  }

  /** `create`: the new document, whose attachments are then filed under its vehicle. */
  method CreateDocument(documentType: FleetDocType, name: string, vehicleId: Option<nat>, validityDate: Option<Day>,
                        attachments: seq<Attachment>, today: Day) returns (d: FleetDocument)
    modifies set a | a in attachments
    ensures fresh(d)
    ensures d.documentType == documentType && d.name == name && d.vehicleId == vehicleId
    ensures d.validityDate == validityDate && d.attachments == attachments
    ensures d.state == DocActive && d.daysToExpire == DaysToExpire(validityDate, today)
    ensures vehicleId.Some? ==> forall a :: a in attachments ==> a.resModel == "fleet.vehicle" && a.resId == vehicleId
  {
    d := new FleetDocument(documentType, name, vehicleId, validityDate, attachments, today);
    d.SyncAttachmentsToVehicle();
  }

  /** `_compute_days_to_expire` over a record set. */
  method ComputeFleetDaysToExpire(docs: seq<FleetDocument>, today: Day)
    modifies (set d | d in docs)`daysToExpire
    ensures forall d :: d in docs ==> d.daysToExpire == DaysToExpire(d.validityDate, today)
  {
    var k := 0;
    while k < |docs|
      invariant 0 <= k <= |docs|
      invariant forall d :: d in docs[..k] ==> d.daysToExpire == DaysToExpire(d.validityDate, today)
    {
      var rec := docs[k];
      if rec.validityDate.Some? {
        rec.daysToExpire := rec.validityDate.value - today;
      } else {
        rec.daysToExpire := 0;
      }
      assert docs[..k + 1] == docs[..k] + [rec];
      k := k + 1;
    }
    assert docs[..k] == docs;
  }
}
