# TRASAS Odoo modules — a Dafny model

This project models the business logic of the TRASAS Odoo add-ons: the
contract, asset, fleet, dispatch and document workflows, the digital
signature request with its demo provider and callback endpoints, the
DocuSign connector (client, records, webhook, user accounts) and the VNPT
SmartCA director signature. Every Odoo model the source changes in place
is a Dafny `class` whose methods are proved against specification
functions on values; the pure helpers are functions with lemmas.

One Dafny module per source file:

| module | models |
|---|---|
| `Common` | optional values, days and instants, decimal rendering, ASCII string helpers, sequence-drawn names |
| `ContractManagement`, `ContractRejectWizard` | `trasas.contract`: approval and signing workflow, dates, numbering, crons; the rejection wizard |
| `SignatureSigner`, `SignatureRequest`, `SignatureProvider`, `SignatureWebhook`, `SignatureContract` | the digital-signature request, its signers, the provider dispatch and demo backend, the callback and demo-sign routes, the contract extension |
| `AssetManagement`, `AssetLegalDocument`, `AssetWizards` | the asset state machine, its stage, code and document cron; legal documents; the reuse and renew wizards |
| `FleetVehicle`, `FleetLegalDocument` | vehicle state and stage sync, readiness checks, maintenance date and reminder; vehicle documents |
| `DispatchIncoming`, `DispatchOutgoing` | incoming and outgoing official letters |
| `DocumentManagement` | document validity and its cron; access requests and their grants |
| `DocusignClient`, `DocusignConnector`, `DocusignWebhook`, `DocusignUsers` | the DocuSign REST client's local decisions, the connector records, the Connect webhook, the account fields on users |
| `VnptContract`, `VnptDirectorSign` | the SmartCA contract, its poll cron and portal link; the director signing wizard |

Dates are day numbers and instants are seconds, so `today` and `now` are
parameters. The results of sequences, random tags, SHA-256,
HMAC-SHA256, base64 decoding, PAdES preparation and embedding, and the
answers of DocuSign and SmartCA are parameters as well. A raised
exception is an `Err` result or an outcome without writes. A loop that
raises part-way keeps its earlier writes, as the Odoo transaction does
until the caller rolls it back.

Several behaviours are kept exactly as the code has them, even where the
module descriptions suggest otherwise:

- Only one signer is invited per call, even when several share an order.
- A request can be cancelled from `expired`.
- The demo signing route does no finalized-state check.
- The DocuSign "out" (simultaneous) policy always fails, because its extension check calls a module that is never imported.

## Model

| member | source | states |
|---|---|---|
| SignatureSigner.NewSigner | trasas_digital_signature/models/signature_signer.py:31-49 | a new signer starts `waiting`, with `sign_order` 10 unless one is given, and no link, date or provider reference |
| SignatureSigner.WellFormedUpdate | trasas_digital_signature/models/signature_signer.py:10 | changing a signer's state or provider data keeps the list in record order `(sign_order, id)` with distinct ids |
| SignatureSigner.OnchangePartner | trasas_digital_signature/models/signature_signer.py:70-74 | with a partner, the signer name and email become the partner's; without one, nothing changes |
| SignatureSigner.OnchangePartnerIdempotent | trasas_digital_signature/models/signature_signer.py:70-74 | the onchange touches only name and email, and a second run changes nothing |
| SignatureContract.SignerLine | trasas_digital_signature/models/contract.py:92-104 | a signer line carries the partner, role and order; a missing partner name or email becomes `""` |
| SignatureContract.PrepareDefaultSigners | trasas_digital_signature/models/contract.py:76-117 | exactly two lines, internal then external; the internal partner is the approver's, else the user's; orders are 1/2 under TRASAS-first, 2/1 otherwise, always {1, 2} |
| SignatureContract.DefaultSignersInviteByFlow | trasas_digital_signature/models/contract.py:106-112 | the created default signers are well formed; the first one invited is internal under TRASAS-first and external otherwise; the second is not invited before the first signs |
| SignatureContract.CreateSignatureRequest | trasas_digital_signature/models/contract.py:46-74 | succeeds if and only if the contract is `approved` or `signing`; the form then carries the contract, flow, deadline and default signers |
| SignatureContract.ViewSignatureRequests | trasas_digital_signature/models/contract.py:26-44 | the form view with `res_id` of the only request if and only if there is exactly one request; otherwise the list |
| SignatureProvider.HasBackendIffDemo | trasas_digital_signature/models/signature_provider.py:132-141 | a `_{type}_{suffix}` backend method exists if and only if the type is `demo` |
| SignatureProvider.ListedTypesHaveBackends | trasas_digital_signature/models/signature_provider.py:67-75 | every type in the base provider list (only `demo`) has every backend method |
| SignatureProvider.ProviderCancel | trasas_digital_signature/models/signature_provider.py:182-192 | `_provider_cancel` always answers True and never raises, with or without a backend method |
| SignatureProvider.ActionTestConnection | trasas_digital_signature/models/signature_provider.py:107-126 | a truthy answer notifies success; an exception (no backend) becomes a connection error |
| SignatureProvider.TestConnectionByType | trasas_digital_signature/models/signature_provider.py:107-141 | the test notifies success for `demo` and fails for every other type |
| SignatureProvider.DemoDownloadSigned | trasas_digital_signature/models/signature_provider.py:242-243 | the demo "signed" document is the original document |
| SignatureProvider.ProviderDownloadSigned | trasas_digital_signature/models/signature_provider.py:178-180 | the download answers if and only if the type is `demo`, and then with the original document |
| SignatureProvider.DemoSigningUrl | trasas_digital_signature/models/signature_provider.py:209-221 | the demo signing link ends in `/demo/{callback_token}/{signer.id}` |
| SignatureProvider.DemoSendDocument | trasas_digital_signature/models/signature_provider.py:201-222 | the reference is `DEMO-` plus the hex part; one entry per signer in signer order, each with the signer's id, its demo link and a `DEMO-SIGNER-` reference |
| SignatureProvider.DemoEntries | trasas_digital_signature/models/signature_provider.py:227-237 | one status entry per signer, in signer order |
| SignatureProvider.DemoGetStatus | trasas_digital_signature/models/signature_provider.py:224-240 | each signer is reported `signed` if it is signed, else `waiting`; the request is `completed` if and only if there are signers and all are signed, else `pending` |
| SignatureWebhook.FindByToken | trasas_digital_signature/controllers/webhook.py:35-37 | the first request with the token, or None when no request has it |
| SignatureWebhook.SignatureCallbackAsWritten | trasas_digital_signature/controllers/webhook.py:22-64 | an unknown token gives 404 and a finalized request gives "ok"; every other call answers 500, because reading `jsonrequest` on an http route raises; the reply is never the success reply and nothing is written |
| SignatureWebhook.SignatureCallback | trasas_digital_signature/controllers/webhook.py:29-64 | as intended: an unknown token gives 404 and a finalized request gives "ok", both with nothing written; a body that is not a JSON object gives 500; otherwise the found request ends as `_process_callback` leaves it, a `signer_id` of 0 counting as absent (`CallbackSignerId`), the reply is 500 exactly when that raises, and no other request changes |
| SignatureWebhook.CallbackSignerId | trasas_digital_signature/models/signature_request.py:325-326 | the `signer_id` acted on: a JSON 0 counts as absent like a missing one, a non-integer stays a non-integer, and every other id is kept |
| SignatureWebhook.CallbackOn | trasas_digital_signature/controllers/webhook.py:55-56 | `_process_callback` on the found request: it succeeds unless a demo payload has a non-integer id or another provider's request is in progress; the request ends as `CallbackApplied` says and every request stays valid |
| SignatureWebhook.DemoDecision | trasas_digital_signature/controllers/webhook.py:78-110 | no request, a signer id not on the request, or an already signed signer stop the route; otherwise the matching signer signs; there is no finalized-state check |
| SignatureWebhook.SignatureDemoSign | trasas_digital_signature/controllers/webhook.py:73-123 | the three refusals write nothing; otherwise the request ends as `_process_callback` leaves it for the signer id, which is the missing id when it is 0, and no other request changes; the page names the signer unless a non-demo request in progress makes the poll raise; for demo and a nonzero id the signer is signed and the next one invited |
| SignatureRequest.FirstWaiting | trasas_digital_signature/models/signature_request.py:353-357 | the first waiting signer in record order, or None if no signer waits |
| SignatureRequest.NextToInvite | trasas_digital_signature/models/signature_request.py:353-368 | the signer to invite is a valid index |
| SignatureRequest.FirstWaitingIsLeast | trasas_digital_signature/models/signature_request.py:353-357 | in record order the first waiting signer has the least `sign_order` among the waiting ones |
| SignatureRequest.SendNextMovesAtMostOne | trasas_digital_signature/models/signature_request.py:346-372 | at most one signer changes, only from `waiting` to `sent`; at most one invitation is added |
| SignatureRequest.SendNextInvitesWhenReady | trasas_digital_signature/models/signature_request.py:353-371 | a signer is invited if and only if it is the first waiting one and every signer with a smaller order has signed; it has the least order among the waiting ones |
| SignatureRequest.SendNextInvitesOnlyOneOfEqualOrder | trasas_digital_signature/models/signature_request.py:359-370 | of two waiting signers, the later one is never invited by the same call, even at an equal order |
| SignatureRequest.SendNextPartialState | trasas_digital_signature/models/signature_request.py:373-379 | the request goes `sent` to `partially_signed` if and only if a signer is invited while some signer has already signed; no other state change |
| SignatureRequest.SendNextWellFormed | trasas_digital_signature/models/signature_request.py:370 | the signers stay in record order with distinct ids |
| SignatureRequest.FindRef | trasas_digital_signature/models/signature_request.py:286-290 | the first signer whose provider reference matches, or None |
| SignatureRequest.FailureIsFinal | trasas_digital_signature/models/signature_request.py:285-313 | once a report raises, the later reports are not applied |
| SignatureRequest.UnknownRefSkipped | trasas_digital_signature/models/signature_request.py:291-292 | a report with an unknown reference changes nothing |
| SignatureRequest.RepeatedReportChangesNothing | trasas_digital_signature/models/signature_request.py:295-309 | `signed` on a signed signer and `refused` on a refused signer write nothing and invite nobody |
| SignatureRequest.ApplyEntryRaisesIff | trasas_digital_signature/models/signature_request.py:286-309 | a report raises ("Expected singleton") if and only if it says signed or refused and matches two or more signers |
| SignatureRequest.SendNextKeepsRefs | trasas_digital_signature/models/signature_request.py:346-379 | an invitation keeps the ids, orders and provider references |
| SignatureRequest.ApplyEntryKeepsRefs | trasas_digital_signature/models/signature_request.py:285-313 | a report keeps the ids, orders and provider references |
| SignatureRequest.ApplyEntryWellFormed | trasas_digital_signature/models/signature_request.py:285-313 | a report keeps the signers in record order with distinct ids |
| SignatureRequest.ApplyEntryIdempotent | trasas_digital_signature/models/signature_request.py:285-313 | applying the same report twice changes nothing more than applying it once |
| SignatureRequest.DistinctRefsNeverRaise | trasas_digital_signature/models/signature_request.py:285-313 | with distinct provider references no sequence of reports raises, and the references stay |
| SignatureRequest.CompletionOfCharacterized | trasas_digital_signature/models/signature_request.py:398-408 | a refusal cancels whatever the others did; otherwise the request completes if and only if there are signers and all signed |
| SignatureRequest.SignedFilename | trasas_digital_signature/models/signature_request.py:419-421 | `signed_` followed by the document's name, or `signed_document.pdf` |
| SignatureRequest.FirstSignedOfRole | trasas_digital_signature/models/signature_request.py:446-451 | the first signed signer of a role in record order, or None |
| SignatureRequest.FillSignFields | trasas_digital_signature/models/signature_request.py:453-468 | an already set internal date, partner date or final scan is never overwritten; unset ones come from the first internal signer's date, today, and the signed document |
| SignatureRequest.FullySignedIsReady | trasas_digital_signature/models/signature_request.py:441-481 | with every signer signed and dated, both roles present and a signed document, the contract has both dates and a scan |
| SignatureRequest.FindId | trasas_digital_signature/models/signature_request.py:213-216 | the signer with the record id, or None when it no longer exists |
| SignatureRequest.RecordSendEntry | trasas_digital_signature/models/signature_request.py:212-224 | recording one provider entry keeps the number of signers |
| SignatureRequest.RecordSendEntries | trasas_digital_signature/models/signature_request.py:212-224 | recording the answer keeps the number of signers |
| SignatureRequest.RecordSendEntriesWellFormed | trasas_digital_signature/models/signature_request.py:212-224 | recording the answer keeps the signers well formed |
| SignatureRequest.RecordAnswerInOrder | trasas_digital_signature/models/signature_request.py:212-224 | with one entry per signer in signer order, every signer gets the link and reference of its own entry |
| SignatureRequest.RecordSendEntryMissingSigner | trasas_digital_signature/models/signature_request.py:216 | an entry whose signer no longer exists writes nothing |
| SignatureRequest.DemoLinksDistinctRefs | trasas_digital_signature/models/signature_provider.py:209-221 | distinct random parts give distinct `DEMO-SIGNER-` references |
| SignatureRequest.ResetUnsigned | trasas_digital_signature/models/signature_request.py:261-263 | `sent` signers go back to `waiting`; `waiting`, `signed` and `refused` ones are untouched |
| SignatureRequest.ResetUnsignedWellFormed | trasas_digital_signature/models/signature_request.py:261-263 | the reset keeps the signers well formed |
| SignatureRequest.DemoSignCompletesCancelledRequest | trasas_digital_signature/models/signature_request.py:316-344 | a cancelled request whose last unsigned signer follows the demo link ends `completed`: the callback does not look at the state |
| SignatureRequest.DemoSignSigns | trasas_digital_signature/models/signature_request.py:324-336 | the signer named by the demo callback becomes signed with the current time |
| SignatureRequest.InitialName | trasas_digital_signature/models/signature_request.py:161-167 | a name other than `New` is kept; `New` or none takes the sequence value, else stays `New` |
| SignatureRequest.FilledToken | trasas_digital_signature/models/signature_request.py:168-169 | a blank callback token is replaced by a fresh one and a set one is kept |
| SignatureRequest.DemoAnswer | trasas_digital_signature/models/signature_provider.py:209-221 | the demo answer has one entry per signer |
| SignatureRequest.DemoSendThenReportsNeverRaise | trasas_digital_signature/models/signature_request.py:281-314 | after a demo send with distinct random parts, no later status report raises |
| SignatureRequest.Request.constructor | trasas_digital_signature/models/signature_request.py:158-170 | a new request is a draft with the sequence name, a filled callback token and no provider data |
| SignatureRequest.Request.SendSigningInvitation | trasas_digital_signature/models/signature_request.py:381-392 | an invitation is mailed only when the template exists and the signer has an email |
| SignatureRequest.Request.SendToNextSigner | trasas_digital_signature/models/signature_request.py:346-379 | the new state is `SendNext` of the old one |
| SignatureRequest.Request.UpdateContractOnCompletion | trasas_digital_signature/models/signature_request.py:441-481 | the contract gets the fields of `FillSignFields`, then completes its signing when all three are set and it is `signing` |
| SignatureRequest.Request.CheckCompletion | trasas_digital_signature/models/signature_request.py:394-439 | a refusal cancels; otherwise a fully signed request completes with the signed copy and hands it to the contract; otherwise nothing changes |
| SignatureRequest.Request.ProcessStatusUpdate | trasas_digital_signature/models/signature_request.py:281-314 | the signers are the reports applied in order; a raise returns a failure before the completion check, otherwise the completion check runs |
| SignatureRequest.Request.ActionCheckStatus | trasas_digital_signature/models/signature_request.py:269-279 | a no-op unless the state is `sent` or `partially_signed`; then the demo status is reconciled |
| SignatureRequest.Request.ProcessCallback | trasas_digital_signature/models/signature_request.py:316-344 | for demo, the named signer signs unless already signed, a non-integer id fails and a missing id does nothing; other types poll instead; the post-state is the one `CallbackApplied` states |
| SignatureRequest.Request.RecordSendAnswer | trasas_digital_signature/models/signature_request.py:212-224 | every signer gets the link and reference of its own entry |
| SignatureRequest.Request.ActionSend | trasas_digital_signature/models/signature_request.py:176-245 | fails unless draft, with a document and signers, writing nothing then; on success the token is filled, the state is `sent`, the references are stored, the first signer is invited and an approved contract becomes `signing` |
| SignatureRequest.Request.ActionCancel | trasas_digital_signature/models/signature_request.py:247-263 | refused in `completed`/`cancelled`, allowed from `expired`; ends `cancelled` with the unsigned signers reset |
| SignatureRequest.CronCheckSignatureExpiry | trasas_digital_signature/models/signature_request.py:499-511 | exactly the `sent`/`partially_signed` requests with a deadline strictly before today become `expired` |
| SignatureRequest.CronCheckSignatureStatus | trasas_digital_signature/models/signature_request.py:483-497 | every request stays valid; one that is not in progress, or whose provider has no status backend, keeps its state, signers and invitations; a demo request in progress takes the signers and invitations of the provider's answer and, when that answer is well-formed, the state its completion check gives |
| SignatureRequest.Request.ApplyStatusEntry | trasas_digital_signature/models/signature_request.py:286-312 | one status report leaves the signers as `ApplyEntry` specifies; a report that raises changes nothing |
| SignatureRequest.Request.ApplyStatusEntries | trasas_digital_signature/models/signature_request.py:285-312 | the reports are applied in order as `ApplyEntries` specifies, stopping with nothing more written at the first one that raises |
| SignatureRequest.Request.DemoSignAt | trasas_digital_signature/models/signature_request.py:330-342 | the demo signer is signed now, the next signer is invited and the completion check runs, as `DemoSign` and `CompletionDone` specify |
| SignatureRequest.Request.SendDemo | trasas_digital_signature/models/signature_request.py:200-232 | the demo provider's references are stored, the request is sent now with its first signer invited, and an approved contract moves to signing |
| ContractManagement.ScheduleEach | trasas_contract_management/models/contract.py:474-483 | one activity per user of the group, all due the same day, in the group's order |
| ContractManagement.ScheduleFor | trasas_contract_management/models/contract.py:511-521 | no activity for an unset user, otherwise exactly one |
| ContractManagement.ScheduleFirst | trasas_contract_management/models/contract.py:877-886 | an activity for the first user of a group when the group is not empty, otherwise none |
| ContractManagement.DurationDays | trasas_contract_management/models/contract.py:337-345 | 0 when a date is missing; otherwise start + duration - 1 = end, both ends counted |
| ContractManagement.DurationPositiveIffDatesOk | trasas_contract_management/models/contract.py:337-402 | with both dates set, the duration is at least one day if and only if the date constraint accepts the dates |
| ContractManagement.OnchangeContractDate | trasas_contract_management/models/contract.py:381-387 | the signing deadline becomes contract date + 7; without a contract date it is kept |
| ContractManagement.OnchangeTypeGivesDuration | trasas_contract_management/models/contract.py:359-366 | choosing a type with default duration D sets end = start + D - 1, so a contract of exactly D days that passes the constraint if and only if D >= 1 |
| ContractManagement.OnchangeDateStartKeepsValidEnd | trasas_contract_management/models/contract.py:368-379 | a start change keeps an end already on or after the start, and otherwise gives the type's duration |
| ContractManagement.OnchangeContractType | trasas_contract_management/models/contract.py:359-366 | with no type, a zero default duration or no start date the end date is kept; otherwise the end date is set so that the contract lasts exactly the default duration in days |
| ContractManagement.OnchangeDateStart | trasas_contract_management/models/contract.py:368-379 | an end date already on or after the start is kept, and so is any end date when there is no start, no type or a zero duration; otherwise (no end date, or one before the start) the end date is set so that the contract lasts exactly the default duration; any change gives that duration |
| ContractManagement.GenerateContractNumber | trasas_contract_management/models/contract.py:439-455 | a type without a name pattern numbers as `<code>/<year>/<n>` with n, one more than the number of same-type contracts created this year, padded to four digits |
| ContractManagement.DefaultNumberShape | trasas_contract_management/models/contract.py:439-456 | without a pattern the number is `{code}/{year}/{sequence:04d}` with sequence = same-type contracts this year + 1 |
| ContractManagement.DefaultNumbersDistinct | trasas_contract_management/models/contract.py:439-456 | under the default pattern two different counts give two different numbers |
| ContractManagement.CreateName | trasas_contract_management/models/contract.py:422-437 | a name other than `New` is kept; otherwise the type's pattern is used when it has one, else the global sequence, else `New` |
| ContractManagement.Contract.constructor | trasas_contract_management/models/contract.py:422-437 | a new contract is a draft with no approval, review, signing data or activities |
| ContractManagement.Contract.SubmitForApproval | trasas_contract_management/models/contract.py:459-490 | allowed only from draft; goes to waiting with one activity per approver due tomorrow; refused, it changes nothing |
| ContractManagement.Contract.SubmitForReview | trasas_contract_management/models/contract.py:652-701 | allowed only from draft; goes to in review; the reviewer, or else every manager, gets an activity |
| ContractManagement.Contract.ConfirmReview | trasas_contract_management/models/contract.py:702-744 | allowed only from in review; goes to waiting and records the reviewer and the time |
| ContractManagement.Contract.Approve | trasas_contract_management/models/contract.py:745-788 | needs the approver group and state waiting; sets approved, the approver and the approval time |
| ContractManagement.Contract.Reject | trasas_contract_management/models/contract.py:789-814 | the wizard opens if and only if the user is an approver and the state is waiting; nothing is written |
| ContractManagement.Contract.ConfirmRejection | trasas_contract_management/models/contract.py:815-844 | back to draft with the reason; the creator gets one activity due today; the state is not checked |
| ContractManagement.Contract.StartSigning | trasas_contract_management/models/contract.py:845-896 | allowed only from approved; goes to signing; the first activity follows the signing flow |
| ContractManagement.Contract.MarkInternalSigned | trasas_contract_management/models/contract.py:897-934 | records the internal signing time in any state, and the next activity follows the flow |
| ContractManagement.Contract.MarkSentToPartner | trasas_contract_management/models/contract.py:935-962 | only in the TRASAS-first flow; records today as the date sent to the partner |
| ContractManagement.Contract.MarkPartnerSigned | trasas_contract_management/models/contract.py:997-1036 | records today as the partner signing date; in the partner-first flow the first director is asked to sign |
| ContractManagement.Contract.CompleteSigning | trasas_contract_management/models/contract.py:603-651 | a no-op unless signing; then it needs the internal signature and the final scan and sets signed, dated today; the class invariant enforces the same pair on every signed contract (404-418) |
| ContractManagement.Contract.CancelContract | trasas_contract_management/models/contract.py:1045-1057 | refused from signed or expired, otherwise cancelled |
| ContractManagement.Contract.SetToDraft | trasas_contract_management/models/contract.py:1058-1078 | refused from signed; otherwise draft, with approver, approval time and rejection reason cleared |
| ContractManagement.CronCheckExpiringContracts | trasas_contract_management/models/contract.py:1121-1179 | signed contracts with today <= end <= today+30 and no activity of step `ExpiryWarning` (see Left out) get one per contract user; signed contracts with end < today become expired; nothing else changes |
| ContractManagement.CronSigningDeadline | trasas_contract_management/models/contract.py:1180-1201 | the reminded contracts are exactly the approved or signing ones whose deadline falls in the next seven days |
| ContractRejectWizard.ConfirmReject | trasas_contract_management/models/contract_reject_wizard.py:24-59 | an empty reason is refused with nothing written; otherwise draft with the reason, old activities closed and one new activity for the creator, due today; the state is not checked |
| ContractManagement.DefaultSequenceWidth | trasas_contract_management/models/contract.py:451-456 | below 9999 earlier contracts of the type in the year, the default pattern's sequence part is exactly four digits |
| ContractManagement.WarnExpiring | trasas_contract_management/models/contract.py:1130-1160 | every contract's activities become what `AfterExpiryWarning` gives for its state and end date; nothing else changes |
| ContractManagement.ExpirePast | trasas_contract_management/models/contract.py:1162-1177 | exactly the contracts `PastEnd` selects become expired; the rest keep their state |
| AssetManagement.StepFollowsMoves | trasas_asset_management/models/asset.py:506-720 | apart from set-to-draft, some action succeeds from s to t if and only if (s, t) is one of the listed moves (confirm draft to in use, lease from draft, repair/maintenance/lease/renovation from in use, return, liquidate, expiring, contract ended, complete, return from lease or renovation) |
| AssetManagement.MoveActions | trasas_asset_management/models/asset.py:506-720 | every listed move is carried by an action |
| AssetManagement.DraftExits | trasas_asset_management/models/asset.py:506-652 | from draft only confirm, direct lease, lease-in and set-to-draft succeed |
| AssetManagement.CompletedIsFinal | trasas_asset_management/models/asset.py:521-541 | a completed asset can only be set back to draft |
| AssetManagement.EveryStateReachable | trasas_asset_management/models/asset.py:506-720 | every state is reachable from draft by a run of actions |
| AssetManagement.RunEndsWithLast | trasas_asset_management/models/asset.py:506-720 | a successful run is a successful shorter run and one more successful step |
| AssetManagement.RunIntoCompleted | trasas_asset_management/models/asset.py:521-531 | an asset that ends up completed got there by the complete action from liquidated, contract-ended or in use |
| AssetManagement.StageFor | trasas_asset_management/models/asset.py:272-278 | the first stage tied to the state, or None exactly when no stage is |
| AssetManagement.SyncedStageIdempotent | trasas_asset_management/models/asset.py:272-284 | syncing the stage a second time changes nothing |
| AssetManagement.SyncedStageMatchesState | trasas_asset_management/models/asset.py:272-284 | when a stage is tied to the state, the synced stage is one tied to that state |
| AssetManagement.Sequence.constructor | trasas_asset_management/models/asset.py:485-486 | a sequence with its prefix, suffix, padding and next number |
| AssetManagement.Sequence.FormatReadsBack | trasas_asset_management/models/asset.py:485-486 | a code reads back as the interpolated prefix, then the number in at least `padding` decimal digits, then the interpolated suffix |
| AssetManagement.Sequence.FormatInjective | trasas_asset_management/models/asset.py:485-486 | two numbers of one sequence never share a code |
| AssetManagement.Sequence.Format | trasas_asset_management/models/asset.py:485-489 | the code begins with the interpolated prefix, ends with the interpolated suffix, and holds at least `padding` decimal digits and nothing else between them |
| AssetManagement.Sequence.Next | trasas_asset_management/models/asset.py:486 | returns the code of the next number and uses that number up |
| AssetManagement.DrawCode | trasas_asset_management/models/asset.py:480-490 | a code other than empty or `New` is kept; otherwise the type's sequence is drawn, else the global one, else `TS/NEW`; no other sequence moves |
| AssetManagement.DrawsFromGrows | trasas_asset_management/models/asset.py:480-490 | a later asset of a batch drawing from the same sequence has strictly more draws from it before it |
| AssetManagement.CodesDistinct | trasas_asset_management/models/asset.py:480-490 | in a batch whose codes were drawn in order, two assets drawing from one sequence never share a code |
| AssetManagement.AssignCodes | trasas_asset_management/models/asset.py:476-491 | one code per new asset: a typed-in code is kept, otherwise its type's sequence is drawn, else the global one, else `TS/NEW`; each drawn code renders its sequence's number before the batch plus the draws from it earlier in the batch; each sequence ends moved by its draws; two assets drawing from one sequence never share a code |
| AssetManagement.DrawAll | trasas_asset_management/models/asset.py:480-490 | the batch is drawn in order: every code is the one its position calls for and every sequence has moved by the draws made from it |
| AssetManagement.DrawCounted | trasas_asset_management/models/asset.py:480-490 | the k-th draw renders its sequence's number before the batch plus the earlier draws from it, and keeps every sequence counted |
| AssetManagement.DocumentedCode | trasas_asset_management/models/asset.py:476-478 | a sequence without prefix, with padding 2 and suffix `.` year-in-two-digits `/TS-<group>-TRS` renders codes of the documented shape `01.26/TS-NXCT-TRS` |
| AssetManagement.Asset.constructor | trasas_asset_management/models/asset.py:210-226 | a new asset is a draft and its stage is the record `trasas_asset_management.stage_draft` (no stage when that record is missing), whichever state that stage is tied to |
| AssetManagement.Asset.WriteState | trasas_asset_management/models/asset.py:272-284 | writing a state writes it and re-syncs the stage |
| AssetManagement.Asset.Act | trasas_asset_management/models/asset.py:506-720 | an action succeeds if and only if it is allowed from the current state; then the state is its target and the stage follows; refused, nothing changes |
| AssetManagement.AfterCron | trasas_asset_management/models/asset.py:821-866 | revoked, expired and undated documents, and those valid beyond today+30, keep their state |
| AssetManagement.AfterCronIdempotent | trasas_asset_management/models/asset.py:827-866 | no document is both warned as expiring and announced as expired in one run, and a second run changes nothing |
| AssetManagement.CronCheckExpiringDocuments | trasas_asset_management/models/asset.py:821-872 | `active` documents with today <= validity <= today+30 become `expiring_soon`; `active`/`expiring_soon` ones with validity < today become `expired`; the two returned lists are exactly those documents |
| AssetLegalDocument.TypeLabel | trasas_asset_management/models/asset_legal_document.py:24-49 | every type has a non-empty label |
| AssetLegalDocument.NameAfterTypeChange | trasas_asset_management/models/asset_legal_document.py:140-148 | a name already given is never overwritten; an empty one takes the type's label unless the type is `other` |
| AssetLegalDocument.NameAfterTypeChangeIdempotent | trasas_asset_management/models/asset_legal_document.py:140-148 | running the onchange twice changes nothing more |
| AssetLegalDocument.LegalDocument.constructor | trasas_asset_management/models/asset_legal_document.py:22-138 | defaults: sequence 10, type `other`, state `active`, no certificate number; the stored days to expiry are computed on creation from the validity date and today (0 without a validity date) |
| AssetLegalDocument.LegalDocument.OnchangeDocumentType | trasas_asset_management/models/asset_legal_document.py:140-148 | the name becomes what `NameAfterTypeChange` gives |
| AssetLegalDocument.ComputeDaysToExpire | trasas_asset_management/models/asset_legal_document.py:130-138 | every document gets validity - today, which can be negative, or 0 without a validity date |
| AssetWizards.ReuseDefaultGet | trasas_asset_management/wizard/asset_reuse_wizard.py:45-56 | the asset and its department come from the context only when `active_model` is `trasas.asset` |
| AssetWizards.RenewDefaultGet | trasas_asset_management/wizard/asset_renew_wizard.py:35-43 | the asset comes from the context only when `active_model` is `trasas.asset` |
| AssetWizards.ConfirmReuse | trasas_asset_management/wizard/asset_reuse_wizard.py:58-96 | fails if and only if end < start, and then writes nothing; otherwise one history line with the wizard's dates and note, the asset back to draft, supplier and department replaced only when given |
| AssetWizards.ConfirmRenew | trasas_asset_management/wizard/asset_renew_wizard.py:45-74 | fails if and only if end < start, and then writes nothing; otherwise one history line with the wizard's dates and the asset `leased` whatever it was |
| AssetManagement.DrawAt | trasas_asset_management/models/asset.py:480-490 | the k-th asset's code is kept or drawn from its source sequence at that sequence's current number; exactly the source sequence moves, by one |
| FleetVehicle.DaysInMonth | trasas_fleet_management/models/fleet_vehicle.py:193-195 | every month has 28 to 31 days |
| FleetVehicle.DayNumberNextDay | trasas_fleet_management/models/fleet_vehicle.py:328 | day numbers count calendar days: the day after any valid date, including the last day of a month, of December and of a leap or common February, has the next day number, so `date - timedelta(days=5)` is five day numbers back |
| FleetVehicle.MarchYearLength | trasas_fleet_management/models/fleet_vehicle.py:328 | a March-based year has 366 days exactly when the February that closes it is a Gregorian leap February (every 4th year, except centuries not divisible by 400), else 365 |
| FleetVehicle.AddMonths | trasas_fleet_management/models/fleet_vehicle.py:193-195 | `relativedelta(months=n)`: n months later, same day, clipped to the last day of a shorter month; a valid date stays valid |
| FleetVehicle.XmlidRoundTrip | trasas_fleet_management/models/fleet_vehicle.py:101-128 | `STATE_TO_XMLID` is injective: reversing it gives back every state |
| FleetVehicle.XmlidToStateSound | trasas_fleet_management/models/fleet_vehicle.py:128 | the reversed table answers only for XML ids of the table |
| FleetVehicle.SyncRoundTrip | trasas_fleet_management/models/fleet_vehicle.py:113-136 | a state's stage maps back to that state |
| FleetVehicle.SyncFromIdRoundTrip | trasas_fleet_management/models/fleet_vehicle.py:113-136 | a stage that maps to a state is that state's stage |
| FleetVehicle.NothingMissingIff | trasas_fleet_management/models/fleet_vehicle.py:233-268 | nothing is reported if and only if each of registration, inspection and insurance has a copy with an attachment and a copy with no validity date or one >= today |
| FleetVehicle.CheckMandatoryDocuments | trasas_fleet_management/models/fleet_vehicle.py:233-268 | the loop collects exactly the missing-document list, every failure together |
| FleetVehicle.NextMaintenanceDate | trasas_fleet_management/models/fleet_vehicle.py:188-197 | set if and only if both start of use and maintenance type are set, and then start + that many months |
| FleetVehicle.DeriveVals | trasas_fleet_management/models/fleet_vehicle.py:199-210 | a state without a stage brings its stage; a stage without a state brings its state; with both or neither nothing is derived |
| FleetVehicle.Stored | trasas_fleet_management/models/fleet_vehicle.py:188-231 | a stored write recomputes the maintenance date |
| FleetVehicle.ApplyWriteOutcomes | trasas_fleet_management/models/fleet_vehicle.py:199-231 | a refused write changes nothing; an accepted one recomputes the maintenance date |
| FleetVehicle.ReadyNeedsDocuments | trasas_fleet_management/models/fleet_vehicle.py:212-218 | without `skip_validation`, entering `ready` from another state happens only with the mandatory documents in order |
| FleetVehicle.InUseNeedsUseData | trasas_fleet_management/models/fleet_vehicle.py:220-229 | without `skip_validation`, entering `in_use` happens only with a start date and maintenance type, from the vals or the record |
| FleetVehicle.WriteKeepsStageInStep | trasas_fleet_management/models/fleet_vehicle.py:199-210 | with a complete registry, writing only the state, or only a known stage, leaves state and stage in step |
| FleetVehicle.Vehicle.constructor | trasas_fleet_management/models/fleet_vehicle.py:175-186 | a new vehicle is active with the given code, state, stage and use data |
| FleetVehicle.Vehicle.Write | trasas_fleet_management/models/fleet_vehicle.py:199-231 | the new state of the vehicle is what `ApplyWrite` gives |
| FleetVehicle.Vehicle.OnchangeStateId | trasas_fleet_management/models/fleet_vehicle.py:138-145 | a stage in the table sets the shown state; any other stage leaves it |
| FleetVehicle.SyncStateId | trasas_fleet_management/models/fleet_vehicle.py:113-120 | a state gets a stage id exactly when its xmlid resolves to a record, and in a consistent registry that record's xmlid maps back to the same state |
| FleetVehicle.SyncStateFromId | trasas_fleet_management/models/fleet_vehicle.py:122-136 | no stage gives no state; a state is given only for a stage whose xmlid is the xmlid table's entry for that state |
| FleetVehicle.Vehicle.Advance | trasas_fleet_management/models/fleet_vehicle.py:274-295 | a vehicle not in the source state is skipped unchanged; otherwise the state is written through `write` |
| FleetVehicle.Vehicle.ActionToRegistration | trasas_fleet_management/models/fleet_vehicle.py:274-279 | only `draft` vehicles move to `registration`; the others are skipped |
| FleetVehicle.Vehicle.ActionSetReady | trasas_fleet_management/models/fleet_vehicle.py:281-287 | only `registration` vehicles move to `ready`, through the document check |
| FleetVehicle.Vehicle.ActionStartUsing | trasas_fleet_management/models/fleet_vehicle.py:289-295 | only `ready` vehicles move to `in_use`, through the use-data check |
| FleetVehicle.Vehicle.ActionSuspend | trasas_fleet_management/models/fleet_vehicle.py:297-300 | any vehicle is written `suspended` |
| FleetVehicle.Vehicle.ActionLiquidate | trasas_fleet_management/models/fleet_vehicle.py:302-309 | fails unless `suspended`; then `liquidated` and archived |
| FleetVehicle.CreateCode | trasas_fleet_management/models/fleet_vehicle.py:177-180 | a given code is kept; a missing one is drawn from the sequence, `/` if it gives nothing |
| FleetVehicle.CreateStateId | trasas_fleet_management/models/fleet_vehicle.py:181-185 | the stage is that of the given state (draft by default) whenever it resolves, otherwise the given stage |
| FleetVehicle.CronCheckDeadlines | trasas_fleet_management/models/fleet_vehicle.py:315-332 | the vehicles reminded are exactly those, not liquidated or expired, with today = maintenance date - 5 |
| FleetLegalDocument.FleetTypeLabel | trasas_fleet_management/models/fleet_legal_document.py:13-28 | every type has a non-empty label |
| FleetLegalDocument.FleetNameAfterTypeChange | trasas_fleet_management/models/fleet_legal_document.py:105-113 | a given name is kept; an empty one takes the type's label unless the type is `other` |
| FleetLegalDocument.Attachment.constructor | trasas_fleet_management/models/fleet_legal_document.py:131-141 | an attachment with its owner model and record |
| FleetLegalDocument.FleetDocument.constructor | trasas_fleet_management/models/fleet_legal_document.py:96-123 | a new document is active with days to expire computed |
| FleetLegalDocument.FleetDocument.OnchangeDocumentType | trasas_fleet_management/models/fleet_legal_document.py:105-113 | the name becomes what `FleetNameAfterTypeChange` gives |
| FleetLegalDocument.FleetDocument.SyncAttachmentsToVehicle | trasas_fleet_management/models/fleet_legal_document.py:131-141 | with a vehicle, every attachment gets `res_model='fleet.vehicle'` and `res_id` the vehicle; without one nothing changes |
| FleetLegalDocument.FleetDocument.Write | trasas_fleet_management/models/fleet_legal_document.py:125-129 | the written fields change; attachments are re-filed only when the attachments or the vehicle are written |
| FleetLegalDocument.CreateDocument | trasas_fleet_management/models/fleet_legal_document.py:119-123 | create always files the attachments under the vehicle |
| FleetLegalDocument.ComputeFleetDaysToExpire | trasas_fleet_management/models/fleet_legal_document.py:96-103 | validity - today, or 0 without a validity date |
| FleetVehicle.Vehicle.Derive | trasas_fleet_management/models/fleet_vehicle.py:200-210 | the values written are completed exactly as `DeriveVals` specifies |
| FleetVehicle.Vehicle.Store | trasas_fleet_management/models/fleet_vehicle.py:231 | the record holds exactly what `Stored` gives for the written values |
| DispatchIncoming.Overdue | trasas_dispatch_management/models/dispatch_incoming.py:116-129 | overdue if and only if the state is `processing`/`waiting_confirmation` and deadline < today; then overdue days = today - deadline, else 0 |
| DispatchIncoming.OverdueDaysPositiveIff | trasas_dispatch_management/models/dispatch_incoming.py:116-129 | the overdue day count is positive if and only if the letter is overdue |
| DispatchIncoming.CheckDates | trasas_dispatch_management/models/dispatch_incoming.py:145-163 | accepted if and only if dispatch date <= received date <= deadline wherever both ends are set; the first violated pair is reported |
| DispatchIncoming.AcceptedDatesChain | trasas_dispatch_management/models/dispatch_incoming.py:145-163 | three accepted dates are in order |
| DispatchIncoming.Apply | trasas_dispatch_management/models/dispatch_incoming.py:179-358 | confirm needs handlers when a response is required and an attachment; done fails whenever a response is required; submit-response needs the response file; the others always apply; the target states; an existing response number is kept; submit fills a missing number and the response date defaults to today |
| DispatchIncoming.ResponseNumberStable | trasas_dispatch_management/models/dispatch_incoming.py:271-358 | once set, no series of actions changes the response number |
| DispatchIncoming.RunKeepsLetterData | trasas_dispatch_management/models/dispatch_incoming.py:179-358 | no action changes the response requirement, handlers, attachments or response file |
| DispatchIncoming.DoneWithResponseNeedsConfirmation | trasas_dispatch_management/models/dispatch_incoming.py:230-331 | a letter that needs a response reaches `done` only through confirm-response |
| DispatchIncoming.ProcessingNeedsAttachment | trasas_dispatch_management/models/dispatch_incoming.py:179-195 | a letter comes into processing only with an attachment, and with handlers when it needs a response |
| DispatchIncoming.IncomingDispatch.constructor | trasas_dispatch_management/models/dispatch_incoming.py:165-173 | a new letter is a draft with no response data |
| DispatchIncoming.IncomingDispatch.ActionConfirm | trasas_dispatch_management/models/dispatch_incoming.py:179-228 | the result and the new state are those of `Apply` for confirm |
| DispatchIncoming.IncomingDispatch.ActionDone | trasas_dispatch_management/models/dispatch_incoming.py:230-251 | the result and the new state are those of `Apply` for done |
| DispatchIncoming.IncomingDispatch.ActionCancel | trasas_dispatch_management/models/dispatch_incoming.py:253-258 | unconditionally cancelled |
| DispatchIncoming.IncomingDispatch.ActionDraft | trasas_dispatch_management/models/dispatch_incoming.py:260-265 | unconditionally draft |
| DispatchIncoming.IncomingDispatch.ActionSubmitResponse | trasas_dispatch_management/models/dispatch_incoming.py:267-284 | the result and the new state are those of `Apply` for submit-response |
| DispatchIncoming.IncomingDispatch.ActionConfirmResponse | trasas_dispatch_management/models/dispatch_incoming.py:328-331 | unconditionally done |
| DispatchIncoming.IncomingDispatch.ActionGenerateResponseNumber | trasas_dispatch_management/models/dispatch_incoming.py:352-358 | fills a missing response number and never replaces an existing one |
| DispatchIncoming.NumberTaken | trasas_dispatch_management/models/dispatch_incoming.py:137-143 | true if and only if a letter with that original number exists |
| DispatchIncoming.CreateIncoming | trasas_dispatch_management/models/dispatch_incoming.py:137-173 | refused if and only if the number is taken or the dates are out of order; otherwise a new draft with its system name |
| DispatchIncoming.CheckOverdueDeadline | trasas_dispatch_management/models/dispatch_incoming.py:360-371 | the reminded letters are exactly the active, in-hand ones whose deadline has passed |
| DispatchOutgoing.DefaultApprover | trasas_dispatch_outgoing/models/dispatch_outgoing.py:64-79 | the user of the first board employee that has one, None when the board or such an employee is missing |
| DispatchOutgoing.DepartmentOf | trasas_dispatch_outgoing/models/dispatch_outgoing.py:130-136 | the department of the drafter's first employee, none without one |
| DispatchOutgoing.HcnsManager | trasas_dispatch_outgoing/models/dispatch_outgoing.py:244-256 | the manager's user of the department found by XML id, else by name, else none |
| DispatchOutgoing.IsUserApprover | trasas_dispatch_outgoing/models/dispatch_outgoing.py:168-172 | true if and only if the approver is the current user |
| DispatchOutgoing.Apply | trasas_dispatch_outgoing/models/dispatch_outgoing.py:152-339 | submit needs the draft file, send-to-HCNS a manager, release the official file; the others always apply and none checks the state; generate-number keeps an existing number, dates today and sets `processing` |
| DispatchOutgoing.OfficialNumberStable | trasas_dispatch_outgoing/models/dispatch_outgoing.py:152-162 | once granted, no series of actions replaces the official number |
| DispatchOutgoing.RunKeepsFiles | trasas_dispatch_outgoing/models/dispatch_outgoing.py:152-339 | no action changes the draft or official file |
| DispatchOutgoing.ApprovalNeedsDraftFile | trasas_dispatch_outgoing/models/dispatch_outgoing.py:174-196 | a letter goes for approval only with a draft file |
| DispatchOutgoing.ReleaseNeedsOfficialFile | trasas_dispatch_outgoing/models/dispatch_outgoing.py:275-308 | a letter is released only with an official file |
| DispatchOutgoing.OutgoingDispatch.constructor | trasas_dispatch_outgoing/models/dispatch_outgoing.py:139-149 | a new letter is a draft with no number and no files |
| DispatchOutgoing.OutgoingDispatch.ActionSubmit | trasas_dispatch_outgoing/models/dispatch_outgoing.py:174-196 | the result and new state are those of `Apply` for submit |
| DispatchOutgoing.OutgoingDispatch.ActionApprove | trasas_dispatch_outgoing/models/dispatch_outgoing.py:198-218 | approved, whatever the state |
| DispatchOutgoing.OutgoingDispatch.ActionReject | trasas_dispatch_outgoing/models/dispatch_outgoing.py:220-239 | back to draft, whatever the state |
| DispatchOutgoing.OutgoingDispatch.ActionSendToHcns | trasas_dispatch_outgoing/models/dispatch_outgoing.py:241-271 | fails without an HCNS manager, otherwise `to_promulgate` |
| DispatchOutgoing.OutgoingDispatch.ActionGenerateNumber | trasas_dispatch_outgoing/models/dispatch_outgoing.py:152-166 | a missing number is drawn, an existing one kept; dated today; `processing` |
| DispatchOutgoing.OutgoingDispatch.ActionRelease | trasas_dispatch_outgoing/models/dispatch_outgoing.py:275-308 | fails without the official file, otherwise `released` |
| DispatchOutgoing.OutgoingDispatch.ActionSend | trasas_dispatch_outgoing/models/dispatch_outgoing.py:310-327 | unconditionally sent |
| DispatchOutgoing.OutgoingDispatch.ActionDone | trasas_dispatch_outgoing/models/dispatch_outgoing.py:329-331 | unconditionally done |
| DispatchOutgoing.OutgoingDispatch.ActionCancel | trasas_dispatch_outgoing/models/dispatch_outgoing.py:333-335 | unconditionally cancelled |
| DispatchOutgoing.OutgoingDispatch.ActionDraft | trasas_dispatch_outgoing/models/dispatch_outgoing.py:337-339 | unconditionally draft |
| DispatchOutgoing.CreateOutgoing | trasas_dispatch_outgoing/models/dispatch_outgoing.py:139-149 | a new draft with the draft sequence name |
| DocumentManagement.AfterExpiryCheck | trasas_document_management/models/documents_document.py:116-177 | folders, revoked, expired and undated documents, and those valid beyond today+30, keep their state; a change is to `expiring_soon` exactly when validity > today and to `expired` exactly when validity <= today |
| DocumentManagement.AfterExpiryCheckIdempotent | trasas_document_management/models/documents_document.py:126-162 | the two searches never take the same document, and a second run on the same day changes nothing |
| DocumentManagement.ValidityTodayDiffersFromAssets | trasas_document_management/models/documents_document.py:155-162 | a validity date of exactly today counts as expired here, while the asset documents' cron still counts it as expiring (trasas_asset_management/models/asset.py:831) |
| DocumentManagement.Document.constructor | trasas_document_management/models/documents_document.py:101-109 | a new document is active with days to expire computed |
| DocumentManagement.Document.ActionRevokeDocument | trasas_document_management/models/documents_document.py:183-186 | sets `revoked` from any state |
| DocumentManagement.Document.ActionReactivateDocument | trasas_document_management/models/documents_document.py:201-204 | sets `active` from any state |
| DocumentManagement.ComputeDocumentDaysToExpire | trasas_document_management/models/documents_document.py:101-109 | validity - today, or 0 without a validity date |
| DocumentManagement.CronDocumentExpiryCheck | trasas_document_management/models/documents_document.py:115-177 | every active document gets `AfterExpiryCheck`; the two returned lists are exactly the documents of the two searches |
| DocumentManagement.DurationDays | trasas_document_management/models/doc_access_request.py:78-90 | a limited duration is at least one day |
| DocumentManagement.ExpiryFor | trasas_document_management/models/doc_access_request.py:175-179 | no expiry if and only if the duration is permanent; otherwise now + N days, strictly later than now |
| DocumentManagement.GrantsFor | trasas_document_management/models/doc_access_request.py:190-210 | one grant per requested document in order, plus one for the folder when set; each carries the request's partner, role and expiry |
| DocumentManagement.LogsFor | trasas_document_management/models/doc_access_request.py:228-243 | one `access_granted` log entry per requested document |
| DocumentManagement.AccessStore.constructor | trasas_document_management/models/doc_access_request.py:190-243 | an empty store of grants and logs |
| DocumentManagement.AccessStore.AddGrants | trasas_document_management/models/doc_access_request.py:190-210 | appends exactly `GrantsFor` |
| DocumentManagement.AccessStore.AddLogs | trasas_document_management/models/doc_access_request.py:228-243 | appends exactly `LogsFor` |
| DocumentManagement.AfterAccessCron | trasas_document_management/models/doc_access_request.py:266-278 | a request changes if and only if it is approved with an expiry <= now, and then becomes expired |
| DocumentManagement.PermanentAccessNeverExpires | trasas_document_management/models/doc_access_request.py:176-275 | a permanent grant is never expired, however late the run |
| DocumentManagement.LimitedAccessExpiresOnTime | trasas_document_management/models/doc_access_request.py:176-275 | a limited grant is expired by a run if and only if the run is at or after approval + N days |
| DocumentManagement.AccessRequest.constructor | trasas_document_management/models/doc_access_request.py:129-137 | a new draft request with its system name and no approval data |
| DocumentManagement.AccessRequest.ActionSubmit | trasas_document_management/models/doc_access_request.py:143-148 | only `draft` becomes `submitted`; otherwise an error and no change |
| DocumentManagement.AccessRequest.ActionReject | trasas_document_management/models/doc_access_request.py:245-250 | only `submitted` becomes `rejected`; otherwise an error and no change |
| DocumentManagement.AccessRequest.ActionApprove | trasas_document_management/models/doc_access_request.py:169-243 | only from `submitted`; records the approver, start now and the expiry, creates the grants and writes the logs; refused, nothing changes |
| DocumentManagement.CronRevokeExpiredAccess | trasas_document_management/models/doc_access_request.py:265-282 | every request gets `AfterAccessCron`; the returned list is exactly the approved requests whose expiry has come |
| DocumentManagement.AfterWarning | trasas_document_management/models/documents_document.py:125-165 | the expiring mark never changes whether a document is past its validity, and expiring then expiring-past gives the specified daily check |
| DocumentManagement.WarnExpiringDocuments | trasas_document_management/models/documents_document.py:125-137 | exactly the active documents in the thirty-day window become expiring soon and are returned |
| DocumentManagement.ExpireDocuments | trasas_document_management/models/documents_document.py:154-165 | exactly the active documents past their validity become expired and are returned |
| Common.DaysToExpire | trasas_contract_management/models/contract.py:348-356 | without an end date the count is 0; otherwise today plus the count is the end date, so it is negative once the date has passed |
| Common.NatToString | trasas_contract_management/models/contract.py:456 | a number is written as at least one decimal digit, and as one digit exactly when it is below ten |
| Common.DigitsValueOfNatToString | trasas_contract_management/models/contract.py:456 | the decimal text of a number reads back as that number |
| Common.NatToStringInjective | trasas_contract_management/models/contract.py:456 | different numbers have different decimal texts |
| Common.ZeroPad | trasas_contract_management/models/contract.py:455-456 | `{sequence:04d}`-style padding: the number's digits at the end, zeros before them up to the width, and never shorter than the digits |
| Common.ZeroPadValue | trasas_contract_management/models/contract.py:455-456 | a zero-padded number reads back as the number |
| Common.ZeroPadInjective | trasas_contract_management/models/contract.py:455-456 | at any width, different numbers are padded differently |
| Common.Lower | docusign/controllers/webhook_controller.py:334 | lower-casing keeps the length and lower-cases each ASCII letter in place |
| Common.SystemName | docusign/models/models.py:26-28 | a record created without a name or with `New` takes the next number of its sequence, or `New` again when the sequence yields nothing; any other name is kept |
| Common.FillNumber | trasas_dispatch_outgoing/models/dispatch_outgoing.py:155-158 | a number is drawn from the sequence only when the record has none; an existing one is kept |
| DocusignClient.ConfigPrefix | docusign/models/docu_client.py:47 | the key prefix is `prod` exactly when the environment is `production`, `demo` for every other value |
| DocusignClient.GetConfig | docusign/models/docu_client.py:33-70 | the environment is the stored `docusign.environment`, or `demo` when it is unset or empty; the configuration is returned exactly when the environment's base URI and account id are both set; it carries the environment, those two values, and the demo test e-mail only in the `demo` environment; otherwise DocuSign counts as not configured |
| DocusignClient.EnvironmentOf | docusign/models/docu_client.py:42-43 | the environment is never empty: the stored `docusign.environment` when it is set and non-empty, else `demo` |
| DocusignClient.PrefixesSeparateKeys | docusign/models/docu_client.py:47-52 | the production and the demo settings are read from different keys |
| DocusignClient.MaskEmail | docusign/models/docu_client.py:19-30 | in the demo environment with a test inbox set, every recipient address becomes that inbox; in every other case the address is kept |
| DocusignClient.LanguageCode | docusign/models/docu_client.py:266-270 | the recipient language is the first two characters of the partner's language when it has at least two, `es` otherwise; it always has two characters |
| DocusignClient.AnchorsDistinct | docusign/models/docu_client.py:309-322 | two different signer positions get different signature anchors (`/sn1/`, `/sn2/`, ...) |
| DocusignClient.BuildSigners | docusign/models/docu_client.py:263-346 | the call fails exactly when some WhatsApp signer has no phone number; otherwise there is one entry per signer, in order, each with its own anchor, and the company stamp tab only on the last signer and only when a stamp is configured |
| DocusignClient.SendOutcome | docusign/models/docu_client.py:382-391 | a status outside 200-299 is refused with the response text; a 2xx answer yields the body's envelope id, or none when the body has none |
| DocusignClient.StatusMapKeys | docusign/models/docu_client.py:721-727 | the keys of the per-signer dict are exactly the lower-cased e-mails of the envelope's signers |
| DocusignClient.StatusMapLastWins | docusign/models/docu_client.py:721-727 | a signer whose lower-cased e-mail no later signer shares has its own status under that key: a later duplicate overwrites an earlier one |
| DocusignClient.StatusOf | docusign/models/docu_client.py:694-743 | an unknown envelope fails; no signers gives `unknown`; one signer gives that signer's status as a string; several give the dict keyed by e-mail |
| DocusignClient.GetStatus | docusign/models/docu_client.py:720-737 | the loop that fills the dict returns exactly the reply `StatusOf` specifies |
| DocusignClient.Mimetype | docusign/models/docu_client.py:833-840 | `.pdf` gives PDF, otherwise `.docx` gives the Word XML type, otherwise `.doc` gives the legacy Word type, and any other name falls back to PDF |
| DocusignClient.PickDocument | docusign/models/docu_client.py:806-812 | a document is picked exactly when the list has more than one entry, and it is the first entry |
| DocusignClient.DownloadOf | docusign/models/docu_client.py:746-855 | a failed status fails the download; a status that is not all completed returns it with no document; a returned document comes from an all-completed envelope with more than one listed document, holds the server's content, is named after the first document (`signed_document.pdf` when it has no name) and has the mimetype of that name; an all-completed envelope with at most one listed document fails |
| DocusignConnector.AddAttachment | docusign/models/models.py:131 | adding an attachment to a many2many set: the result holds it and every old attachment and nothing else, and an attachment already present leaves the set as it was |
| DocusignConnector.EmailMatchesIff | docusign/models/models.py:456-457 | the character-by-character check accepts an address exactly when it has the pattern's shape: a non-empty local part, `@`, a non-empty domain, a last dot, and at least two letters after it |
| DocusignConnector.CheckPartnerEmail | docusign/models/models.py:446-460 | a recipient without an e-mail is refused as missing, one whose e-mail does not match the pattern as invalid, and only a matching e-mail passes |
| DocusignConnector.LatestSigned | docusign/models/models.py:102-112 | picks an earlier signed line with signed copies whose id is the largest (the first of equal ids); none exactly when no earlier line qualifies |
| DocusignConnector.ChosenAttachment | docusign/models/models.py:110-116 | the document sent in sequence is the first signed copy of the latest signed earlier line, and the connector's first attachment when there is none |
| DocusignConnector.SentLine | docusign/models/models.py:131-137 | the sent line gets status `sent`, the send flag, the envelope id and the document's name, and the sent document joins its unsigned attachments; nothing else changes |
| DocusignConnector.Send | docusign/models/models.py:73-203 | no attachment, no recipient, all lines sent, a missing e-mail or an earlier unsigned line is refused with the data unchanged; the simultaneous policy always fails; a success happens only in sequence, for the first unsent line, after every earlier line signed, and changes exactly that line and the state (to `sent`) |
| DocusignConnector.SendWaitsForEarlierSignatures | docusign/models/models.py:102-108 | sending in sequence is refused while any line with a smaller id than the next recipient is unsigned |
| DocusignConnector.SendKeepsLinesValid | docusign/models/models.py:388-393 | a send keeps every line's envelope consistent with its status and keeps (envelope, partner) pairs unique |
| DocusignConnector.StoredLine | docusign/models/models.py:239-243 | the line storing a signed copy gets that attachment added, status `completed` and the sign flag; nothing else changes |
| DocusignConnector.MultiSignerNeverStored | docusign/models/models.py:226 | an envelope with several signers answers with a dict of statuses, which never equals `completed`, so nothing is stored |
| DocusignConnector.DownloadInHierarchy | docusign/models/models.py:210-257 | no sent and unsigned line is refused; otherwise only lines change; a change means the first such line's copy was completed and is stored on that line as the new attachment named after the downloaded file |
| DocusignConnector.DownloadHandsCopyOn | docusign/models/models.py:254-257 | the stored copy is added to the unsigned attachments of the first later line that was not sent yet |
| DocusignConnector.DownloadedPrefix | docusign/models/models.py:260-281 | the lines before the stopping point are downloaded, each with its own new attachment number, and the rest stay unchanged |
| DocusignConnector.DownloadSimultaneous | docusign/models/models.py:259-289 | succeeds exactly when no line lacks an envelope id or fails to download; then every line is downloaded; on failure the lines before the failing one keep what they stored; the state and attachments never change |
| DocusignConnector.DownloadKeepsState | docusign/models/models.py:291-292 | no download, in either policy, changes the connector's state: the webhook decides it |
| DocusignConnector.CheckedLine | docusign/models/models.py:313-323 | an unsigned line whose envelope reports the single status `completed` becomes completed and signed; every other line is left as it was |
| DocusignConnector.CheckedPrefix | docusign/models/models.py:310-323 | the lines before the stopping point are checked and the rest stay unchanged |
| DocusignConnector.LinesOfPartner | docusign/models/models.py:335 | keeps exactly the lines of the given partner |
| DocusignConnector.RelevantLines | docusign/models/models.py:333-337 | the lines that decide the state are the sale customer's lines when there are any, and all lines otherwise |
| DocusignConnector.AggregateState | docusign/models/models.py:339-359 | all relevant lines signed (and at least one) gives `completed`; some signed gives `customer`; none signed leaves the state |
| DocusignConnector.StatusCheck | docusign/models/models.py:305-370 | succeeds exactly when no line lacks an envelope id or fails its status request; then every line is checked and the state is aggregated from the relevant lines; on failure the lines before the failing one keep their update and the state is unchanged |
| DocusignConnector.StatusCheckCompletedIff | docusign/models/models.py:345-357 | after a successful check, the state becomes `completed` exactly when every relevant line is signed |
| DocusignConnector.MultiSignerNeverChecked | docusign/models/models.py:316-319 | a line whose envelope has several signers is never marked signed by a status check |
| DocusignConnector.DownloadEach | docusign/models/models.py:260-281 | the loop over the lines returns exactly what `DownloadSimultaneous` specifies |
| DocusignConnector.CheckEach | docusign/models/models.py:310-359 | the loop over the lines returns exactly what `StatusCheck` specifies |
| DocusignConnector.Connector.constructor | docusign/models/models.py:23-29 | a missing or `New` name takes the next sequence number; the state starts at `new` |
| DocusignConnector.Connector.SendDocs | docusign/models/models.py:73-203 | the record's new lines and state are those `Send` gives, and the error it reports is the one `Send` gives |
| DocusignConnector.Connector.DownloadDocs | docusign/models/models.py:205-302 | the record changes as `DownloadInHierarchy` or `DownloadSimultaneous` specifies, by the policy |
| DocusignConnector.Connector.StatusDocs | docusign/models/models.py:305-370 | the record changes as `StatusCheck` specifies and keeps its number of lines |
| DocusignWebhook.SignatureHeaders | docusign/controllers/webhook_controller.py:166-170 | the collected values are exactly the stripped values of the non-empty headers whose lower-cased name starts with `x-docusign-signature-` |
| DocusignWebhook.VerifyHmac | docusign/controllers/webhook_controller.py:158-191 | an unset (blank) key accepts every call; with a key, no signature header rejects it, and otherwise the call is accepted exactly when some header equals the base64 HMAC-SHA256 of the raw body under the stripped key |
| DocusignWebhook.Capitalize | docusign/controllers/webhook_controller.py:263 | the first character is upper-cased and every other character lower-cased, and the length is kept |
| DocusignWebhook.ReplaceDash | docusign/controllers/webhook_controller.py:262 | every dash becomes a space and every other character is kept |
| DocusignWebhook.EventLabel | docusign/controllers/webhook_controller.py:254-263 | an empty event gives an empty label and only then; the label is the capitalized words after the `recipient-`/`envelope-` prefix, or the capitalized raw event when those words are blank; no character after the first is upper-case |
| DocusignWebhook.EventLabelHasNoDash | docusign/controllers/webhook_controller.py:262 | once the stripped event has words, its label contains no dash |
| DocusignWebhook.RecipientName | docusign/controllers/webhook_controller.py:275-294 | the signer with the payload's recipient id, if named; else the first signer with a name or e-mail; else `Recipient`; never empty |
| DocusignWebhook.EventMessage | docusign/controllers/webhook_controller.py:252-272 | no message for an empty event; otherwise `Contract <label> to <recipient> at <time>` |
| DocusignWebhook.CollectCompleted | docusign/controllers/webhook_controller.py:326-336 | the loop collects exactly the recipient ids and the lower-cased, stripped e-mails of the completed signers |
| DocusignWebhook.MarkedLines | docusign/controllers/webhook_controller.py:341-349 | an unsigned line of the envelope matched by recipient id or e-mail becomes signed and completed; every other line is kept |
| DocusignWebhook.MarkLines | docusign/controllers/webhook_controller.py:341-349 | the loop over the lines returns exactly what `MarkedLines` specifies |
| DocusignWebhook.MarkRecipientCompletion | docusign/controllers/webhook_controller.py:318-356 | only a `recipient-completed` event marks lines, exactly as `MarkedLines` specifies; every other event and every other field are left as they were |
| DocusignWebhook.RecipientMarked | docusign/controllers/webhook_controller.py:318-356 | the connector after `_mark_recipient_completion`: only a `recipient-completed` event changes anything, and then only lines change, their number kept; a line already signed or of another envelope is kept; a line that changes becomes signed with status `completed`, as `MarkedLines` states |
| DocusignWebhook.MarkingKeepsOtherLines | docusign/controllers/webhook_controller.py:342-343 | a line already signed, or tracking another envelope, is never touched by the marking |
| DocusignWebhook.MappedStatus | docusign/controllers/webhook_controller.py:377-385 | `sent` and `delivered` map to `sent`, `completed` to `completed`, `declined` and `voided` to `draft`, and any other status keeps the line's own |
| DocusignWebhook.LineAfterEvent | docusign/controllers/webhook_controller.py:387-399 | the line takes the mapped status; `sent` sets the send flag, `completed` both flags, `declined`/`voided` clears both; anything else keeps them; no other field changes |
| DocusignWebhook.EventKeepsEnvelopeConsistent | docusign/models/models.py:462-469 | a tracked line keeps the rule that a sent or completed line has an envelope id |
| DocusignWebhook.StateAfterDownload | docusign/controllers/webhook_controller.py:445-476 | an envelope-level completion sets `completed`, and nothing else does; `sent`/`delivered` moves `new` to `sent`, or moves to `customer` when some line is signed and the state is not yet `customer`/`completed`; any other status keeps the state |
| DocusignWebhook.AutoDownload | docusign/controllers/webhook_controller.py:420-478 | a connector that already holds a signed copy is left as it is; otherwise it is downloaded by its policy and its state set as `StateAfterDownload` says |
| DocusignWebhook.AutoDownloadCompletesOnlyOnEnvelopeEvent | docusign/controllers/webhook_controller.py:448-455 | the automatic download makes a connector `completed` only on an envelope-level completion event |
| DocusignWebhook.StoredCopyStopsLaterDownloads | docusign/controllers/webhook_controller.py:432-436 | once a download stored a signed copy on some line, the connector holds a signed copy |
| DocusignWebhook.AutoDownloadAtMostOnce | docusign/controllers/webhook_controller.py:421-436 | a second automatic download after one that stored a copy changes nothing |
| DocusignWebhook.DownloadSignedDocuments | docusign/controllers/webhook_controller.py:420-478 | the connector becomes exactly what `AutoDownload` specifies |
| DocusignWebhook.TrackingLines | docusign/controllers/webhook_controller.py:119-120 | lists positions of lines tracking the envelope, and every such line is listed |
| DocusignWebhook.AfterTrackedLineAsWritten | docusign/controllers/webhook_controller.py:133-147 | the code as written for one tracked line: the line takes the event, the status check refreshes the connector, and on `completed` the automatic download runs afterwards, on lines that are by then signed (see Findings and `CompletedLineNeverDownloaded`); the number of lines is kept |
| DocusignWebhook.CompletedLineNeverDownloaded | docusign/controllers/webhook_controller.py:133-147 | as written, a one-line connector without a signed copy still has none after the `completed` event: the line is marked signed before the download, which fetches only sent and unsigned lines |
| DocusignWebhook.AfterTrackedLine | docusign/controllers/webhook_controller.py:133-147 | as intended (fetch before the status update; see Findings): on `completed`, while no signed copy is held, the documents are downloaded first, then the line takes the event and the status check refreshes the connector, and only then is the state set; the number of lines is kept. The code as written marks the line first, which `AfterTrackedLineAsWritten` models |
| DocusignWebhook.CompletedLineDownloaded | docusign/controllers/webhook_controller.py:145-147 | fetched first, a one-line connector whose line was sent and awaits its signature holds the signed copy after the `completed` event whenever DocuSign hands out the document |
| DocusignWebhook.FetchOnCompletion | docusign/controllers/webhook_controller.py:145-147 | the documents are downloaded exactly on `completed` while the connector holds no signed copy; otherwise nothing changes |
| DocusignWebhook.ProcessTrackedLines | docusign/controllers/webhook_controller.py:133-147 | as intended (fetch before the status update; see Findings): the loop over the tracked lines leaves the connector as `AfterTrackedLines` specifies |
| DocusignWebhook.AfterTrackedLines | docusign/controllers/webhook_controller.py:133-147 | the tracked lines are processed one after the other, each as `AfterTrackedLine` states; the number of lines is kept |
| DocusignWebhook.HandleWebhook | docusign/controllers/webhook_controller.py:69-156 | a body that is not JSON answers `Invalid JSON`, a bad signature `Invalid signature`, a missing envelope id `Missing envelope ID`, an untracked envelope `Envelope not tracked`, each leaving the connector untouched, as written; a tracked one answers `Webhook processed` after marking recipients (as `RecipientMarked` states) and processing the tracked lines in order, as intended (fetch before the status update; see Findings) |
| DocusignWebhook.ProcessTrackedLine | docusign/controllers/webhook_controller.py:134-147 | as intended (fetch before the status update; see Findings): one tracked line's fetch, status update and refresh leave the connector as `AfterTrackedLine` specifies, keeping its name |
| DocusignUsers.SetAttributes | docusign/models/res_users.py:236-238 | keeps exactly the attributes of a model whose value is not None, in their order |
| DocusignUsers.Sanitize | docusign/models/res_users.py:220-241 | the result holds no swagger model; None stays None and only None gives None; primitives are kept; lists and tuples keep their kind and length; a dict keeps its keys in order; a model becomes a dict over its non-None attributes |
| DocusignUsers.SanitizeItems | docusign/models/res_users.py:226-231 | every element of a list or tuple is sanitized in place, in order |
| DocusignUsers.SanitizeEntries | docusign/models/res_users.py:240-241 | every value of a dict is sanitized under its own key, in order |
| DocusignUsers.SanitizePlain | docusign/models/res_users.py:220-241 | a value holding no swagger model is its own serialization |
| DocusignUsers.SanitizeIdempotent | docusign/models/res_users.py:220-241 | serializing a serialized value changes nothing |
| DocusignUsers.RecordName | docusign/models/res_users.py:44-50 | the record name starts with `DS-Account`; it is exactly that without a user name, and `DS-Account: ` followed by the name otherwise |
| DocusignUsers.RecordNameInjective | docusign/models/res_users.py:44-50 | different user names give different record names |
| DocusignUsers.RedirectUrlAsWritten | docusign/models/res_users.py:74-79 | with a base URL, the URL is the base without trailing slashes followed by `/docusign`; without one, the expression as written fails |
| DocusignUsers.RedirectUrlAsWrittenFailsWithoutBase | docusign/models/res_users.py:79 | with no `web.base.url` set, the redirect URL as written cannot be computed |
| DocusignUsers.RedirectUrl | docusign/models/res_users.py:74-79 | the redirect URL ends in `/docusign`, joined to the base URL without trailing slashes by exactly one slash, and is `/docusign` alone without a base URL |
| DocusignUsers.RedirectUrlAgrees | docusign/models/res_users.py:79 | the written expression yields a URL exactly when a base URL is set, and then it is the intended one |
| DocusignUsers.GetCode | docusign/models/res_users.py:90-101 | the DocuSign login page opens exactly when the redirect URL, the integration key and the secret key are all set, and it opens the computed login URL; otherwise the credentials are reported missing |
| DocusignUsers.RefreshOf | docusign/models/res_users.py:138-178 | a refresh succeeds exactly when there is a refresh token and an account type and DocuSign answers 200 with an access token and a lifetime; then the new token is stored with its expiry `now + expires_in`, and the refresh token is replaced only when DocuSign sends one; a 200 answer without an access token returns nothing and raises nothing; every failure leaves the account unchanged |
| DocusignUsers.ValidTokenOf | docusign/models/res_users.py:180-194 | no access token is refused; a token that does not expire within five minutes is handed out unchanged; otherwise the token is refreshed as `RefreshOf` says |
| DocusignUsers.RefreshedTokenIsValid | docusign/models/res_users.py:187-194 | a token just refreshed with a lifetime beyond five minutes is handed out as it is at the same moment, without another refresh |
| DocusignUsers.DocusignAccount.constructor | docusign/models/res_users.py:55-56 | a new account has no tokens, no expiry and the developer account type |
| DocusignUsers.DocusignAccount.RefreshAccessToken | docusign/models/res_users.py:138-178 | the outcome and the account's new tokens are those `RefreshOf` gives |
| DocusignUsers.DocusignAccount.GetValidAccessToken | docusign/models/res_users.py:180-194 | the token handed out and the account's new tokens are those `ValidTokenOf` gives |
| VnptContract.PdfBytes | vnpt_smartca_contract_sign/models/contract.py:76-83 | no attachment gives no bytes; the raw content when set, else the decoded `datas`, else nothing; bytes come only from an attachment holding content |
| VnptContract.SigFieldName | vnpt_smartca_contract_sign/models/contract.py:74 | the signature field is never empty: the record's own name when set, `DirectorSignature1` otherwise |
| VnptContract.PortalUrl | vnpt_smartca_contract_sign/models/contract.py:98-102 | the portal link is the base URL (`False` when the parameter is unset or empty), `/my/contracts/`, the contract id and the access token as query parameter |
| VnptContract.DigitsThenSeparator | vnpt_smartca_contract_sign/models/contract.py:102 | a contract id followed by a non-digit separator can be read back: equal strings mean equal ids and equal tails |
| VnptContract.PortalUrlInjective | vnpt_smartca_contract_sign/models/contract.py:98-102 | two contracts never share a portal link, and one contract's link determines its token |
| VnptContract.SendToCustomer | vnpt_smartca_contract_sign/models/contract.py:104-122 | the mail is sent exactly when the contract waits for the customer, the customer has an e-mail, the director-signed PDF exists and the template is found; it goes to the customer's e-mail with the contract's portal link; the checks fail in the source's order |
| VnptContract.ChooseSignature | vnpt_smartca_contract_sign/models/contract.py:161-167 | the chosen item is one of SmartCA's: the first whose `doc_id` equals the contract's when the contract has one and some item matches, and the first item otherwise |
| VnptContract.PolledOutcomes | vnpt_smartca_contract_sign/models/contract.py:154-201 | one poll either leaves the contract as it was, marks it `failed`, or moves it to `waiting_customer` changing only the signed PDF and the CMS value |
| VnptContract.PolledSignsIff | vnpt_smartca_contract_sign/models/contract.py:161-196 | the contract moves to `waiting_customer` exactly when SmartCA returned signatures, the chosen item has a CMS, the placeholder PDF has content and the embedding succeeds; it then stores that CMS and the embedded PDF named after the unsigned PDF |
| VnptContract.PendingLeavesContract | vnpt_smartca_contract_sign/models/contract.py:157-171 | no signatures yet, or a chosen item without CMS, leaves the contract untouched |
| VnptContract.MissingPlaceholderFails | vnpt_smartca_contract_sign/models/contract.py:173-175 | once a CMS arrived, a missing placeholder PDF marks the contract `failed` |
| VnptContract.Contract.constructor | vnpt_smartca_contract_sign/models/contract.py:49-74 | a new contract is `draft`, without transaction or generated PDFs, and has the default signature field name |
| VnptContract.Contract.WriteDirectorRequest | vnpt_smartca_contract_sign/wizard/director_sign_wizard.py:93-103 | the contract waits for the director, stores the SmartCA transaction and the placeholder PDF, and nothing else changes |
| VnptContract.Contract.Poll | vnpt_smartca_contract_sign/models/contract.py:155-201 | the contract becomes exactly what `Polled` specifies for SmartCA's answer |
| VnptContract.PollingIndices | vnpt_smartca_contract_sign/models/contract.py:144-147 | the positions of exactly the contracts waiting for the director with a transaction id, in id order |
| VnptContract.Selected | vnpt_smartca_contract_sign/models/contract.py:142-147 | the cron polls contracts the search matches, in id order, at most `limit` of them when the limit is positive, the first ones in id order, and all of them for a zero limit or when fewer match |
| VnptContract.DataOfAt | vnpt_smartca_contract_sign/models/contract.py:154 | the values read from a list of contracts are each contract's own |
| VnptContract.CronPollDirector | vnpt_smartca_contract_sign/models/contract.py:139-201 | the run succeeds exactly when nothing is selected or the SmartCA client can be built; then each selected contract becomes what `Polled` gives for its transaction's status and every other contract is unchanged; a failed run changes nothing |
| VnptDirectorSign.Digits2 | vnpt_smartca_contract_sign/wizard/director_sign_wizard.py:30 | a number below 100 as exactly two decimal digits that read back as the number |
| VnptDirectorSign.Digits4 | vnpt_smartca_contract_sign/wizard/director_sign_wizard.py:30 | a number below 10000 as exactly four decimal digits that read back as the number |
| VnptDirectorSign.TimeStamp | vnpt_smartca_contract_sign/wizard/director_sign_wizard.py:29-30 | the `YYYYMMDDhhmmssZ` stamp has fifteen characters and ends in `Z` |
| VnptDirectorSign.TimeStampFields | vnpt_smartca_contract_sign/wizard/director_sign_wizard.py:30 | year, month, day, hour, minute and second each read back from their digits of the stamp |
| VnptDirectorSign.TimeStampInjective | vnpt_smartca_contract_sign/wizard/director_sign_wizard.py:29-30 | different UTC clock readings give different time stamps |
| VnptDirectorSign.DocId | vnpt_smartca_contract_sign/wizard/director_sign_wizard.py:28 | the `doc_id` starts with `DOC-` |
| VnptDirectorSign.DocIdInjective | vnpt_smartca_contract_sign/wizard/director_sign_wizard.py:28 | the contract id and the random tag can be read back from a `doc_id` |
| VnptDirectorSign.HexChar | vnpt_smartca_contract_sign/wizard/director_sign_wizard.py:60 | each nibble becomes the upper-case hexadecimal digit of its value |
| VnptDirectorSign.HexUpper | vnpt_smartca_contract_sign/wizard/director_sign_wizard.py:60 | the hash text has two upper-case hex digits per digest byte, high nibble first |
| VnptDirectorSign.HexUpperDigits | vnpt_smartca_contract_sign/wizard/director_sign_wizard.py:60 | every character of the hash text is an upper-case hex digit, and each pair reads back as its byte |
| VnptDirectorSign.HexUpperInjective | vnpt_smartca_contract_sign/wizard/director_sign_wizard.py:60 | different digests are never sent as the same hash text |
| VnptDirectorSign.TxId | vnpt_smartca_contract_sign/wizard/director_sign_wizard.py:74 | the transaction id is never empty: the contract's own when it has one, a new `SP_CA_` id otherwise |
| VnptDirectorSign.Written | vnpt_smartca_contract_sign/wizard/director_sign_wizard.py:93-103 | after SmartCA accepted, the contract is one the poll looks at, keeps its unsigned and signed PDFs and CMS value, holds the new placeholder PDF, and takes SmartCA's transaction id when it returns one and the requested id otherwise |
| VnptDirectorSign.ActionSendOf | vnpt_smartca_contract_sign/wizard/director_sign_wizard.py:39-112 | no unsigned PDF, a state other than `draft`/`failed`, or empty PDF content is refused in that order with the contract unchanged; the request is sent exactly when those pass, the PAdES preparation succeeds and SmartCA accepts, and only then is the contract written |
| VnptDirectorSign.SendsOneHash | vnpt_smartca_contract_sign/wizard/director_sign_wizard.py:60-90 | exactly one file is sent, signed by hash, carrying the wizard's `doc_id` and the upper-case hex SHA-256 of the prepared bytes; an existing transaction id is reused |
| VnptDirectorSign.SentContractIsPolled | vnpt_smartca_contract_sign/wizard/director_sign_wizard.py:93-103 | a contract the wizard sent waits for the director with a transaction id and a placeholder, so the poll cron picks it up, and it cannot be sent again before the poll settles it |
| VnptDirectorSign.DirectorSignWizard.constructor | vnpt_smartca_contract_sign/wizard/director_sign_wizard.py:15-22 | a new wizard keeps the contract, the SmartCA user and the certificate serial, with the other fields empty |
| VnptDirectorSign.DirectorSignWizard.ActionAutofill | vnpt_smartca_contract_sign/wizard/director_sign_wizard.py:24-37 | fills the description from the contract and customer names, the `doc_id` from the contract id and the tag, and the time stamp from the clock, keeping the SmartCA user and serial |
| VnptDirectorSign.DirectorSignWizard.ActionSend | vnpt_smartca_contract_sign/wizard/director_sign_wizard.py:39-112 | the outcome and the contract's new data are those `ActionSendOf` gives |

## Left out

- Network I/O:
  - the DocuSign REST calls and the JWT/OAuth token exchange (`_generate_jwt_access_token`, `_get_cached_access_token`, `generate_access_token`, `get_user_info`, `create_recipient_view`, `replace_envelope_document`, `get_envelope_details`);
  - the SmartCA client;
  - the portal controllers.

  Their answers enter the model as parameters: a server map, a token reply, a sign response or a status reply.
- Cryptography and randomness: SHA-256, HMAC-SHA256, base64 and `uuid4` are parameters, so no property of the digests themselves is stated.
- PAdES: preparing the placeholder and embedding the CMS (the pyhanko wrapper) are parameters. Their byte layout is not visible to the model.
- Chatter, mail and activities: `message_post`, `send_mail` and activity e-mails are not modelled. Exceptions:
  - contract activities, which are kept as a sequence;
  - signature invitations, which are recorded.
- Transaction control: `cr.commit()` in `send_docs` is left out, and so is the rollback Odoo performs after a raise (the model keeps earlier writes).
- The DocuSign webhook is modelled for the one connector that owns the envelope's tracked lines. Envelopes whose lines belong to several connectors are not modelled.
- `_format_event_time` (time-zone conversion) is left out: the formatted time is a parameter of the event message.
- `_update_contract_custom_fields` is left out: it parses monetary values as floats.
- HMAC comparison: `hmac.compare_digest` is string equality in the model.
- DocusignUsers.Sanitize: dictionary keys are assumed distinct, as they are in a Python dict. A swagger model whose `attribute_map` sends two attributes to one key is not modelled.
- `_compute_url` (the login URL built by the DocuSign SDK) and the `_check_account_type` onchange are left out. `GetCode` takes the login URL as given.
- `_portal_ensure_token` is left out: the portal token is a parameter of the portal link.
- `action_request_director_signature` only opens the wizard; its missing-PDF guard is the wizard's first check, which is modelled.
- VnptContract.CronPollDirector: `vnpt_smartca.poll_limit` is modelled as an optional natural number. Two values fall outside it. A non-numeric value makes `int()` raise. A negative value such as `-5` passes `int()` and is handed to `search(limit=...)`, where the database refuses it. Neither is modelled.
- AssetManagement.Sequence.Format: of Odoo's sequence interpolation codes only the year (four and two digits), month and day are modelled. Not modelled: day of year, week, weekday, hours, minutes and seconds; date-range sub-sequences; an increment other than 1; the time zone of the date. The creation date is a parameter. No asset sequence record is defined in the module, so the documented code shape is stated as `DocumentedCode` over a sequence configured that way.
- ContractManagement: a contract number pattern is given as a list of pieces. Parsing the pattern string with `str.format` is left out.
- ContractManagement.Contract.MarkInternalSigned, ContractManagement.Contract.MarkSentToPartner, ContractManagement.Contract.MarkPartnerSigned and ContractManagement.Contract.StartSigning: these close the open to-do activities without the `activity_feedback` override (trasas_contract_management/models/contract.py:527-601).
- ContractManagement.CronCheckExpiringContracts and ContractManagement.WarnExpiring: the duplicate test is weaker than the code's. The daily job (contract.py:1146-1149) skips the warning when any activity's lower-cased summary contains "hết hạn". Activities here carry a step, not a summary, so the model skips it exactly when an `ExpiryWarning` activity is present. The two disagree in three cases: a hand-made activity whose summary mentions "hết hạn" (the code skips, the model warns); any activity of a contract whose name contains "hết hạn", because summaries carry the name (the code skips, the model warns); and a summary translated without the phrase (the code warns again every day, the model does not).
  - In state signing, that override first runs a handler for each open activity whose summary or note contains `B12` or `B13`.
  - A `B12` activity is left by MarkInternalSigned in the TRASAS-first flow. Its handler sets `sent_to_partner_date` to today.
  - A `B13` activity is left by MarkInternalSigned in the partner-first flow, by MarkSentToPartner and by the `B12` handler. Its handler raises a UserError when no final scan is uploaded. Otherwise it runs `_complete_signing`, which can sign the contract.
  - So a second `action_mark_internal_signed`, or `action_mark_partner_signed` after it in the partner-first flow, can raise or sign the contract in the source. The model does neither.
  - Activities scheduled by the handlers are closed by the same call, so the model's activity lists agree with the source's.
  - Summaries include the contract name, so a name containing `B12` or `B13` also triggers the handlers. This is not modelled either.
- `_compute_signer_stats` is a display counter and is left out.
- Migration hooks, post-init SQL, master-data models, dashboards and the API log are not logic of the workflows.
- Fleet: `_trasas_sync_standard_states`, `_get_or_create_document_folder` and `_check_and_notify_alerts` are left out; they create master data and folders and send notifications.
- VnptContract.SendToCustomer: the mail template is looked up as `vnpt_smartca_contract_full.mail_template_contract_customer_sign`, but the module's directory is `vnpt_smartca_contract_sign`. Whether `env.ref` finds the template is a parameter. The recipient is taken to be the partner's e-mail, which is what the refusal checks guard; the template's own `email_to` (data/mail_template.xml) is not part of this model.
- Common.Lower, DocusignWebhook.Capitalize and DocusignWebhook.UpperChar: only ASCII letters change case. Python's `lower()` and `capitalize()` also map non-ASCII letters such as Vietnamese ones, and that is not modelled.
- SignatureRequest.CronCheckSignatureStatus: states what each request's own state, signers and invitations become. It does not state what happens to the contracts. Several requests can share one contract, and each completion hands that contract over again, so the result depends on the order of the sweep.
- DocusignWebhook.HandleWebhook: the final `except Exception` (webhook_controller.py:154-156) is not modelled. Any other exception raised while the webhook runs, for instance in a download or a chatter post, is answered `Internal error`. The model has no such path, and it does not say which earlier writes survive. A failure of `status_docs` is still modelled, because the code catches it on its own (webhook_controller.py:139-142).

## Findings

| source | as written | input that shows it | evidently intended | confidence | as-written member | corrected member |
|---|---|---|---|---|---|---|
| docusign/models/res_users.py:79 | the `@api.depends(...)` line of `_compute_url` is joined to the end of the conditional expression, so the else branch reads `'/docusign' @ api.depends(...)`, a matrix product a string does not support; `_compute_url` also loses its decorator | no `web.base.url` configured (empty value) | `redirect_url` is `/docusign` when no base URL is set, and the base URL without trailing slashes followed by `/docusign` otherwise | high, not executed | DocusignUsers.RedirectUrlAsWrittenFailsWithoutBase | DocusignUsers.RedirectUrlAgrees |
| trasas_digital_signature/controllers/webhook.py:51 | the callback route is declared `type="http"` yet reads `request.jsonrequest`, which the request object of an http route in Odoo 19 does not have; the `AttributeError` is caught by `except Exception` and answered with 500, so `_process_callback` never runs | any POST whose token names a request that is not completed, cancelled or expired | the JSON body is read and handed to `_process_callback` | high, not executed | SignatureWebhook.SignatureCallbackAsWritten | SignatureWebhook.SignatureCallback |
| docusign/controllers/webhook_controller.py:145-147 | on `completed`, `_update_envelope_status` and `status_docs` set `sign_status` on the envelope's line before `_download_signed_documents` runs, and `download_docs` fetches only lines that are sent and not signed (docusign/models/models.py:211 and 263), so the copy of the envelope that just completed is never stored | a connector with one sent, unsigned line and no signed copy, and a `completed` event for its envelope | the signed copy of the completed envelope is downloaded once, as the handler's docstring promises | high, not executed | DocusignWebhook.CompletedLineNeverDownloaded | DocusignWebhook.CompletedLineDownloaded |
