# Compliance Configuration Security reconcile pass, in Dafny

This project models one reconcile pass of the tigera operator's
ComplianceConfigurationSecurity (CCS) controller: `ReconcileCCS.Reconcile`
and its helper `GetCCS`, from `pkg/controller/ccs/ccs_controller.go`.

A pass takes a request and looks up the Tenant and the CCS resource. For the
request named after the controller's own TigeraStatus, it reads that status
and writes the CR status back. It then checks a series of prerequisites in a
fixed order:

- the API server, the tier watch, the allow-tigera tier, the license API and the license;
- the Installation, the pull secrets, and the ManagementCluster and ManagementClusterConnection;
- the certificate manager, the manager's TLS certificate and the Linseed certificate;
- the trusted bundle, the API key pair and the Authentication resource;
- the tenant namespaces, the key validator configuration and the image set.

It renders the configuration snapshot and applies three components in order. At
the end it either reports the feature unlicensed, requeues, or writes
`Status.State = Ready` back to the CR. Each check that fails ends the pass with
its own result, and most of them set Degraded on the status manager with a
reason of their own.

The model has four modules besides the shared vocabulary in `operator.dfy`.

- `Status` (`status.dfy`) covers the part of the status manager the controller
  drives. The class `StatusManager` holds the Degraded condition and the
  CR-exists flag. Each of its methods records the call it received and changes
  the state by `Step`. `Replay` folds a sequence of calls into a state.
- `CcsController` (`ccs_controller.dfy`):
  - An `Observations` value gathers the outcome of every read the pass makes
    against the cluster, and of every call into the certificate manager, the
    renderer, the image set and the component handler.
  - One pure *stage function* per block of the source says what that block does
    with the observations: its reads, its status calls, the snapshot it
    renders, the components it applies, the CR status writes it issues, and
    whether it stops the pass. `Resume` chains the stages.
  - The class `ReconcileCCS` performs the pass, stage by stage, calling the
    `StatusManager` and recording the rest in ghost fields. Each of its methods
    is proved to do exactly what its stage function describes, so `Reconcile`
    is proved equal to `Resume` from the lookup on.
- `CcsProperties` (`ccs_properties.dfy`) holds the tables of what each check
  returns and which Degraded reason it sets. It also holds facts about each
  stage, and lemmas that split a pass into the phase where it stops and what
  came before.
- `ReconcileGuarantees` (`reconcile_guarantees.dfy`) states what a whole pass
  promises for every possible observation, in the order of the source.

Each place where the pass can stop is a `Gate`. A pass result (`Run`) holds the
gate it stopped at, or none, what `Reconcile` returns (`Outcome`: `Done`,
`RequeueAfterStandardRetry` or `Error(gate)`), and the effects it had.

## Model

| member | source | states |
|---|---|---|
| Status.StatusManager.SetDegraded | pkg/controller/ccs/ccs_controller.go:221 | records the Degraded reason and the check that failed, and leaves the CR-exists flag alone |
| Status.StatusManager.ClearDegraded | pkg/controller/ccs/ccs_controller.go:472 | clears Degraded and leaves the CR-exists flag alone |
| Status.StatusManager.OnCRFound | pkg/controller/ccs/ccs_controller.go:239 | records the CR as present and leaves Degraded alone |
| Status.StatusManager.OnCRNotFound | pkg/controller/ccs/ccs_controller.go:233 | records the CR as absent and leaves Degraded alone |
| Status.ReplayConcat | pkg/controller/ccs/ccs_controller.go:205-486 | replaying two runs of status calls one after the other is replaying their concatenation |
| Status.ReplayOverwrites | pkg/controller/ccs/ccs_controller.go:205-486 | a field that a run of calls writes ends the same from any starting state; a field it does not write keeps its value |
| Status.ReplayIdempotent | pkg/controller/ccs/ccs_controller.go:205-486 | repeating the status calls of a pass leaves the status manager as one pass left it |
| Status.ReplayLast | pkg/controller/ccs/ccs_controller.go:205-486 | after one more call the state is the previous state changed by that call |
| CcsController.GetCCS | pkg/controller/ccs/ccs_controller.go:187-198 | the Get is made under the key "tigera-secure", namespaced by the request only when multi-tenant; it succeeds exactly when the read does not fail and the object exists, and then returns that object with its state; it is NotFound exactly when the read does not fail and the object is absent |
| CcsController.TopologyOf | pkg/controller/ccs/ccs_controller.go:326-355 | with at most one of ManagementCluster and ManagementClusterConnection present, the cluster is a management cluster exactly when the first exists, and a managed cluster exactly when the second exists |
| CcsController.ApplyUntilFailure | pkg/controller/ccs/ccs_controller.go:458-463 | the components attempted are a prefix of the list; nothing fails exactly when no component in the list fails, and then all are attempted; otherwise the last one attempted is the one that failed, and every earlier one succeeded |
| CcsController.ApplyUntilFailureAt | pkg/controller/ccs/ccs_controller.go:458-463 | when component i is the first that fails, the loop attempts exactly the components up to and including i |
| CcsController.ComponentsApplied | pkg/controller/ccs/ccs_controller.go:457-463 | for the namespace, certificate management and CCS components, the attempted list and the failing component for each set of failures |
| CcsController.LookupStage | pkg/controller/ccs/ccs_controller.go:211-239 | the skip, the Tenant read and the CR read, with the status call and result of each way they end |
| CcsController.TigeraStatusStage | pkg/controller/ccs/ccs_controller.go:245-257 | when the request names the controller's TigeraStatus: its read and the CR status write, whose errors end the pass without a degrade; any other request passes with no effect |
| CcsController.GateStage | pkg/controller/ccs/ccs_controller.go:259-295 | the API server, tier watch, tier, license API and license checks in order, with their results and Degraded reasons |
| CcsController.InstallationStage | pkg/controller/ccs/ccs_controller.go:297-330 | the Installation, pull secrets, ManagementCluster and ManagementClusterConnection reads and the conflict check |
| CcsController.CertificateStage | pkg/controller/ccs/ccs_controller.go:332-362 | the certificate manager, the manager's TLS certificate on a management cluster, and the Linseed certificate from where the role says |
| CcsController.BundleStage | pkg/controller/ccs/ccs_controller.go:363-391 | the tenant bundle when multi-tenant, then the API key pair, handing on the bundle `BundleFor` describes |
| CcsController.AuthenticationStage | pkg/controller/ccs/ccs_controller.go:393-402 | the Authentication read error, the not-Ready Authentication, and the absent or Ready one that passes |
| CcsController.RenderStage | pkg/controller/ccs/ccs_controller.go:404-446 | the tenant namespaces, the key validator, the rendered snapshot and the image set, with the Degraded reason or error of each that fails |
| CcsController.FinalStage | pkg/controller/ccs/ccs_controller.go:457-486 | the apply loop over the three components, followed by `Report` |
| CcsController.Report | pkg/controller/ccs/ccs_controller.go:463-486 | after the apply loop: the failed component, the unlicensed feature, the unavailable components, or the Ready write and its error |
| CcsController.Resume | pkg/controller/ccs/ccs_controller.go:205-486 | the pass from a given stage on: each stage in turn, stopping at the first that halts |
| CcsProperties.Disposition | pkg/controller/ccs/ccs_controller.go:211-486 | what `Reconcile` returns for each gate: Done, a requeue after the standard retry, or the error |
| CcsProperties.DegradedReason | pkg/controller/ccs/ccs_controller.go:221-467 | the reason SetDegraded is given for each gate, and no reason for the gates that do not set Degraded |
| CcsProperties.EndCalls | pkg/controller/ccs/ccs_controller.go:221-472 | the status calls a pass makes at the gate it stops at: SetDegraded with its reason, OnCRNotFound, ClearDegraded, or none |
| CcsController.ReconcileCCS.Reconcile | pkg/controller/ccs/ccs_controller.go:205-486 | the pass returns what `Resume` from the lookup returns and performs its effects: reads, status calls, the snapshot rendered, components applied and CR status writes; the status manager ends in the state reached by replaying those calls |
| CcsController.ReconcileCCS.LookupCcs | pkg/controller/ccs/ccs_controller.go:206-239 | the skip of a multi-tenant request without a namespace, the Tenant read and the CR read, with their status calls, as `LookupStage` describes |
| CcsController.ReconcileCCS.ReportConditions | pkg/controller/ccs/ccs_controller.go:245-257 | the TigeraStatus read and the CR status write, only for the request named after the controller's TigeraStatus, as `TigeraStatusStage` describes |
| CcsController.ReconcileCCS.ReconcileFound | pkg/controller/ccs/ccs_controller.go:259-486 | the rest of the pass once the CR is found and the TigeraStatus block passed equals `Resume` from the gates |
| CcsController.ReconcileCCS.CheckGates | pkg/controller/ccs/ccs_controller.go:259-295 | the API server, tier watch, tier, license API and license checks in order, each with its result and Degraded reason, as `GateStage` describes; on success it hands on the license |
| CcsController.ReconcileCCS.CheckInstallation | pkg/controller/ccs/ccs_controller.go:297-330 | the Installation, pull secrets, ManagementCluster and ManagementClusterConnection reads and the check that both cluster objects do not exist, as `InstallationStage` describes; on success it hands on the cluster's role |
| CcsController.ReconcileCCS.Deploy | pkg/controller/ccs/ccs_controller.go:332-486 | the rest of the pass from the certificate manager on equals `Resume` from there |
| CcsController.ReconcileCCS.ResolveCertificates | pkg/controller/ccs/ccs_controller.go:332-364 | creating the certificate manager, reading the manager's TLS certificate only on a management cluster, and reading the Linseed certificate from where the cluster's role says, as `CertificateStage` describes |
| CcsController.ReconcileCCS.PrepareBundle | pkg/controller/ccs/ccs_controller.go:365-391 | the built or, when multi-tenant, the tenant's trusted bundle, then the API key pair, as `BundleStage` describes |
| CcsController.ReconcileCCS.RenderAndApply | pkg/controller/ccs/ccs_controller.go:393-486 | the rest of the pass from the Authentication read on equals `Resume` from there |
| CcsController.ReconcileCCS.CheckAuthentication | pkg/controller/ccs/ccs_controller.go:393-402 | an Authentication read error degrades the pass and returns the error; an Authentication that is not Ready degrades it and returns with no error, as `AuthenticationStage` describes |
| CcsController.ReconcileCCS.RenderComponents | pkg/controller/ccs/ccs_controller.go:404-446 | the tenant namespaces, the key validator configuration, the rendered snapshot and the image set, as `RenderStage` describes; on success it hands on the snapshot |
| CcsController.ReconcileCCS.ApplyComponents | pkg/controller/ccs/ccs_controller.go:457-463 | the loop applies the three components in order and stops after the first failure, so it computes `ApplyUntilFailure` |
| CcsController.ReconcileCCS.ApplyAndReport | pkg/controller/ccs/ccs_controller.go:457-486 | the apply loop, then the unlicensed, not-available and Ready transitions, as `FinalStage` describes |
| CcsProperties.LookupStageFacts | pkg/controller/ccs/ccs_controller.go:206-239 | the lookup passes exactly when the request is not skipped, a Tenant exists and the CR is read; it then hands on that CR and calls OnCRFound; it reads nothing but the Tenant and the CR, and applies and writes nothing |
| CcsProperties.TigeraStatusStageFacts | pkg/controller/ccs/ccs_controller.go:245-257 | the block passes exactly when it is skipped or both its calls succeed; it reads the TigeraStatus and writes the CR status only for the request named after it |
| CcsProperties.GateStageFacts | pkg/controller/ccs/ccs_controller.go:259-295 | the checks pass exactly when the API server, the tier watch, the tier, the license API and the license are all there; they hand on the license and make no other kind of call |
| CcsProperties.InstallationStageFacts | pkg/controller/ccs/ccs_controller.go:297-330 | the block passes exactly when all four reads succeed and not both cluster objects exist; the role it hands on matches the cluster objects; when both exist and the second was read, the pass stops at the conflict |
| CcsProperties.CertificateStageFacts | pkg/controller/ccs/ccs_controller.go:332-364 | the block passes exactly when the certificates are ready; the manager's TLS certificate is read exactly on a management cluster with a certificate manager; the Voltron copy is read only on a managed cluster and Linseed's own secret only on another; the right one is read whenever the earlier steps succeeded |
| CcsProperties.BundleStageFacts | pkg/controller/ccs/ccs_controller.go:365-391 | the block passes exactly when the tenant bundle (multi-tenant only) and the key pair are had; the bundle is the tenant's exactly when multi-tenant, and otherwise holds the manager's TLS certificate exactly on a management cluster where it was read |
| CcsProperties.AuthenticationStageFacts | pkg/controller/ccs/ccs_controller.go:393-402 | the check passes exactly when the Authentication is absent or Ready; one that exists and is not Ready stops the pass at AuthenticationNotReady; the only read is the Authentication |
| CcsProperties.RenderStageFacts | pkg/controller/ccs/ccs_controller.go:404-446 | the block passes exactly when the namespaces, the key validator and the image set succeed; a snapshot with the bundle, role, license flag and CR is rendered exactly when the first two succeed, and the image set is applied exactly then |
| CcsProperties.ReportTabled | pkg/controller/ccs/ccs_controller.go:457-486 | the end of the pass makes the status calls and returns the result that the tables give for the gate it stops at |
| CcsProperties.ReportFacts | pkg/controller/ccs/ccs_controller.go:457-486 | a failed apply stops the pass at that component; Ready is written exactly when nothing failed, the feature is licensed and the components are available; the pass then stops only if that write fails |
| CcsProperties.ResumeOutcome | pkg/controller/ccs/ccs_controller.go:205-486 | from any point, a pass returns what the gate it stopped at calls for, and Done when it stopped at none |
| CcsProperties.ResumeCalls | pkg/controller/ccs/ccs_controller.go:205-486 | from any point, the status calls of a pass are OnCRFound (when it found the CR), then exactly the calls that its gate calls for |
| CcsProperties.LateOutcome | pkg/controller/ccs/ccs_controller.go:332-486 | from the certificate manager on, a pass stopped at a gate returns what `Disposition` gives that gate, and one that stops at no gate returns Done |
| CcsProperties.LateCalls | pkg/controller/ccs/ccs_controller.go:332-486 | from the certificate manager on, the status calls of a pass are exactly those its gate calls for |
| CcsProperties.FrontLookupsAreFront | pkg/controller/ccs/ccs_controller.go:211-330 | every read a pass makes before it creates the certificate manager is one of the front reads: the Tenant, the CR, the TigeraStatus, the API server, tier and license checks, the Installation, the pull secrets and the cluster's role |
| CcsProperties.FoundStaysFound | pkg/controller/ccs/ccs_controller.go:226-239 | once the CR has been read, no later check reports it missing |
| CcsProperties.FrontPasses | pkg/controller/ccs/ccs_controller.go:211-257 | a pass that finds the CR and passes the TigeraStatus block is the Tenant read, the CR read, OnCRFound and that block's read and write, followed by the pass from the gates |
| CcsProperties.LookupPasses | pkg/controller/ccs/ccs_controller.go:211-239 | a pass that finds the CR is the lookup's effects, followed by the pass from the TigeraStatus block |
| CcsProperties.TigeraStatusPasses | pkg/controller/ccs/ccs_controller.go:245-257 | a TigeraStatus block that passes contributes its read and its write, and the pass goes on from the gates |
| CcsProperties.GatesStop | pkg/controller/ccs/ccs_controller.go:259-330 | a pass stopped by one of these checks makes only the early reads and renders, applies and writes nothing |
| CcsProperties.GatesPass | pkg/controller/ccs/ccs_controller.go:259-330 | when all these checks pass, the pass is their seven reads followed by the pass from the certificate manager |
| CcsProperties.CertificatesStop | pkg/controller/ccs/ccs_controller.go:332-364 | a pass stopped by a certificate check makes only the certificate reads, and renders, applies and writes nothing |
| CcsProperties.CertificatesPass | pkg/controller/ccs/ccs_controller.go:332-364 | when the certificate checks pass, the pass is the certificate reads followed by the pass from the trusted bundle |
| CcsProperties.BundleStop | pkg/controller/ccs/ccs_controller.go:365-391 | a pass stopped at the bundle or the key pair renders, applies and writes nothing |
| CcsProperties.BundlePass | pkg/controller/ccs/ccs_controller.go:365-391 | when the bundle and key pair are had, the pass goes on with the bundle `BundleFor` describes |
| CcsProperties.AuthenticationStop | pkg/controller/ccs/ccs_controller.go:393-402 | a pass stopped at the Authentication reads only it, and renders, applies and writes nothing |
| CcsProperties.AuthenticationPass | pkg/controller/ccs/ccs_controller.go:393-402 | a pass past the Authentication is its read followed by the pass from the renderer |
| CcsProperties.RenderStop | pkg/controller/ccs/ccs_controller.go:404-446 | a pass stopped while rendering applies and writes nothing, and has rendered the snapshot exactly when it reached the image set |
| CcsProperties.RenderPass | pkg/controller/ccs/ccs_controller.go:404-446 | a pass past the renderer has rendered exactly one snapshot and goes on to the apply loop with it |
| CcsProperties.FrontStops | pkg/controller/ccs/ccs_controller.go:211-257 | a pass that does not get past the lookup or the TigeraStatus block makes only early reads and writes back only what that block wrote |
| CcsProperties.LookupStops | pkg/controller/ccs/ccs_controller.go:211-239 | a pass that does not find the CR makes only early reads and writes nothing |
| CcsProperties.TigeraStatusStops | pkg/controller/ccs/ccs_controller.go:245-257 | a pass stopped in the TigeraStatus block makes only early reads and writes back only what that block wrote |
| CcsProperties.ToCertificates | pkg/controller/ccs/ccs_controller.go:205-332 | a pass that reaches the certificate manager makes the fixed early reads, then continues as the pass from there |
| CcsProperties.ToBundle | pkg/controller/ccs/ccs_controller.go:205-365 | a pass that gets past the certificates is the early reads and the certificate reads, followed by the pass from the trusted bundle |
| CcsProperties.ToRender | pkg/controller/ccs/ccs_controller.go:205-404 | a pass that gets past the Authentication is the early, certificate, bundle and Authentication reads, followed by the pass from the renderer |
| CcsProperties.ToApply | pkg/controller/ccs/ccs_controller.go:205-457 | a pass that reaches the apply loop has rendered exactly its snapshot, and its gate, result, applies and writes are those of the apply loop and what follows |
| CcsProperties.LateReads | pkg/controller/ccs/ccs_controller.go:365-446 | from the trusted bundle on, only the bundle, key pair, Authentication, namespace, key validator and image set calls are made |
| CcsProperties.CertificateReadsAmong | pkg/controller/ccs/ccs_controller.go:340-356 | around the early and later reads, the certificate reads alone decide which certificates a pass reads |
| CcsProperties.CertificatePhaseGates | pkg/controller/ccs/ccs_controller.go:332-364 | which certificate check stops the pass: the certificate manager, then the manager's TLS certificate, then the Linseed read error, then the missing Linseed certificate |
| CcsProperties.BundlePhaseGates | pkg/controller/ccs/ccs_controller.go:365-402 | which check stops the pass: the tenant bundle, then the key pair, then the Authentication read, then the Authentication state |
| CcsProperties.RenderPhaseGates | pkg/controller/ccs/ccs_controller.go:404-446 | which check stops the pass: the tenant namespaces, then the key validator, then the image set |
| CcsProperties.StopsBeforeBundle | pkg/controller/ccs/ccs_controller.go:205-364 | a pass stopped at or before the certificate checks applies nothing, writes back only what the TigeraStatus block wrote and does not write Ready |
| CcsProperties.StopsBeforeApply | pkg/controller/ccs/ccs_controller.go:365-446 | a pass stopped between the trusted bundle and the apply loop applies nothing, writes back only what the TigeraStatus block wrote and does not write Ready |
| ReconcileGuarantees.SkipPaths | pkg/controller/ccs/ccs_controller.go:211-223 | a multi-tenant request without a namespace does nothing and returns Done; a missing Tenant ends the pass after that read alone; a Tenant read error sets Degraded(ResourceReadError) and returns the error |
| ReconcileGuarantees.CrLookup | pkg/controller/ccs/ccs_controller.go:187-198 | the CR is read right after the Tenant under the key "tigera-secure", in the request's namespace only when multi-tenant; a missing CR calls OnCRNotFound and ends the pass with Done; a read error sets Degraded(ResourceReadError) and returns it; a found CR calls OnCRFound before anything else |
| ReconcileGuarantees.FoundPassTabled | pkg/controller/ccs/ccs_controller.go:239-486 | a pass that finds the CR returns what its gate calls for and makes OnCRFound then that gate's status calls; one stopped at no gate returns Done after clearing Degraded |
| ReconcileGuarantees.StoppedAtGate | pkg/controller/ccs/ccs_controller.go:239-486 | the same, for a pass known to stop at a given gate |
| ReconcileGuarantees.TigeraStatusBlock | pkg/controller/ccs/ccs_controller.go:245-257 | a failed TigeraStatus read returns the error with no write and no Degraded; otherwise the first CR status write is of the found CR; a failed write returns its error after that single write, without Degraded |
| ReconcileGuarantees.BackgroundGates | pkg/controller/ccs/ccs_controller.go:259-295 | the API server, tier watch, tier, license API and license are checked in that order; the first missing one decides the result (Done, requeue or error) and the Degraded reason |
| ReconcileGuarantees.InstallationGates | pkg/controller/ccs/ccs_controller.go:297-330 | once those pass, the Installation, the pull secrets, the ManagementCluster and the ManagementClusterConnection are checked in that order, and having both cluster objects is an error with Degraded(ResourceValidationError) |
| ReconcileGuarantees.ReadsStopBeforeCertificates | pkg/controller/ccs/ccs_controller.go:205-330 | a pass stopped before the certificate manager makes only the early reads |
| ReconcileGuarantees.ReadsInOrder | pkg/controller/ccs/ccs_controller.go:205-446 | a pass that reaches the certificate manager makes the early reads, then the certificate reads, then only later reads |
| ReconcileGuarantees.ReadsStopAtCertificates | pkg/controller/ccs/ccs_controller.go:332-364 | a pass stopped by a certificate check makes exactly the early reads and the certificate reads |
| ReconcileGuarantees.ReadsPastCertificates | pkg/controller/ccs/ccs_controller.go:332-446 | a pass past the certificate checks makes the early reads, the certificate reads, and then only later reads |
| ReconcileGuarantees.ConflictPrecedesCertificates | pkg/controller/ccs/ccs_controller.go:326-334 | the certificate manager is created exactly when every earlier check passes, and never when both cluster objects exist |
| ReconcileGuarantees.CertificateSource | pkg/controller/ccs/ccs_controller.go:340-356 | the manager's TLS certificate is read exactly when the certificate manager was reached and created and a ManagementCluster exists; the Voltron copy of the Linseed certificate is read only when a ManagementClusterConnection exists, and Linseed's own secret only when none does; once the earlier certificate steps succeed, the location is read exactly as the cluster's role says |
| ReconcileGuarantees.CertificateGateAt | pkg/controller/ccs/ccs_controller.go:332-364 | for a pass that reaches the certificate manager, which certificate check stops it |
| ReconcileGuarantees.CertificateAuthorityStops | pkg/controller/ccs/ccs_controller.go:334-338 | a certificate manager that cannot be created sets Degraded(ResourceCreateError) and returns the error |
| ReconcileGuarantees.ManagerTlsStops | pkg/controller/ccs/ccs_controller.go:340-346 | on a management cluster, a manager TLS certificate that cannot be read sets Degraded(ResourceValidationError) and returns the error |
| ReconcileGuarantees.LinseedQueryStops | pkg/controller/ccs/ccs_controller.go:356-359 | a Linseed certificate that cannot be read sets Degraded(ResourceValidationError) and returns the error |
| ReconcileGuarantees.CertificateGates | pkg/controller/ccs/ccs_controller.go:332-359 | the three certificate failures, in order, with their results and Degraded reasons |
| ReconcileGuarantees.LinseedPending | pkg/controller/ccs/ccs_controller.go:360-364 | a Linseed certificate that does not exist yet sets Degraded(ResourceNotReady) and returns Done, with nothing rendered or applied |
| ReconcileGuarantees.CertificatesNothingApplied | pkg/controller/ccs/ccs_controller.go:332-364 | a pass stopped by a certificate check renders and applies nothing |
| ReconcileGuarantees.BundleGateAt | pkg/controller/ccs/ccs_controller.go:365-402 | for a pass past the certificates, which bundle, key pair or Authentication check stops it |
| ReconcileGuarantees.TenantBundleStops | pkg/controller/ccs/ccs_controller.go:368-374 | in a multi-tenant cluster, a tenant bundle that cannot be loaded sets Degraded(ResourceReadError) and returns the error |
| ReconcileGuarantees.KeyPairStops | pkg/controller/ccs/ccs_controller.go:382-390 | an API key pair that cannot be had sets Degraded(ResourceValidationError) and returns the error |
| ReconcileGuarantees.BundleGates | pkg/controller/ccs/ccs_controller.go:365-391 | the tenant bundle, then the key pair, with their results and Degraded reasons |
| ReconcileGuarantees.AuthenticationQueryStops | pkg/controller/ccs/ccs_controller.go:394-398 | an Authentication read error other than NotFound sets Degraded(ResourceReadError) and returns the error |
| ReconcileGuarantees.AuthenticationNotReadyStops | pkg/controller/ccs/ccs_controller.go:399-402 | an Authentication that is not Ready sets Degraded(ResourceNotReady) and returns Done |
| ReconcileGuarantees.AuthenticationDecidesRendering | pkg/controller/ccs/ccs_controller.go:393-406 | a pass stopped by the Authentication check renders and applies nothing; one that passes it reads the tenant namespaces |
| ReconcileGuarantees.AuthenticationGate | pkg/controller/ccs/ccs_controller.go:393-406 | the Authentication read error, the not-Ready Authentication before anything is rendered or applied, and the absent or Ready Authentication that lets the pass go on to the tenant namespaces |
| ReconcileGuarantees.RenderGateAt | pkg/controller/ccs/ccs_controller.go:404-446 | for a pass past the Authentication, which rendering check stops it; the image set failure comes after the snapshot was rendered and before anything is applied |
| ReconcileGuarantees.TenantNamespacesStops | pkg/controller/ccs/ccs_controller.go:406-409 | a tenant namespace read error returns the error without touching Degraded |
| ReconcileGuarantees.KeyValidatorStops | pkg/controller/ccs/ccs_controller.go:411-415 | a key validator configuration error sets Degraded(ResourceValidationError) and returns the error |
| ReconcileGuarantees.ImageSetStops | pkg/controller/ccs/ccs_controller.go:442-446 | an image set failure sets Degraded(ResourceUpdateError) and returns the error |
| ReconcileGuarantees.RenderGates | pkg/controller/ccs/ccs_controller.go:404-446 | the three rendering failures, in order, with their results and Degraded calls, the image set one after exactly one snapshot was rendered and with nothing applied |
| ReconcileGuarantees.ApplyOrder | pkg/controller/ccs/ccs_controller.go:457-463 | nothing is applied unless every earlier check passed; then the namespace, certificate management and CCS components are applied in that order, up to and including the first that fails |
| ReconcileGuarantees.FinalRun | pkg/controller/ccs/ccs_controller.go:457-486 | for a pass that reaches the apply loop, the gate and the CR status writes for each way the loop and the final transitions can end |
| ReconcileGuarantees.ApplyFailure | pkg/controller/ccs/ccs_controller.go:458-462 | a component that fails to apply sets Degraded(ResourceUpdateError) and returns the error, and the pass writes nothing back to the CR |
| ReconcileGuarantees.ComponentApplyTabled | pkg/controller/ccs/ccs_controller.go:458-462 | a failed component apply returns its error and sets Degraded(ResourceUpdateError) for that component, and makes no other status call |
| ReconcileGuarantees.UnlicensedTransition | pkg/controller/ccs/ccs_controller.go:465-469 | without the compliance feature (line 421), all three components are still applied; the pass then sets Degraded(ResourceValidationError) and returns Done, without clearing Degraded or writing Ready |
| ReconcileGuarantees.UnavailableTransition | pkg/controller/ccs/ccs_controller.go:471-478 | a licensed pass clears Degraded; when the components are not available it requeues after the standard retry and writes nothing back |
| ReconcileGuarantees.ReadyTransition | pkg/controller/ccs/ccs_controller.go:471-485 | a licensed pass with everything available clears Degraded, writes Status.State = Ready to the found CR, and returns the error of that write, if any |
| ReconcileGuarantees.ReadyOnlyWhenAvailable | pkg/controller/ccs/ccs_controller.go:479-485 | Ready is written to the CR exactly when the pass gets through the apply loop with the feature licensed and the components available; apart from it, the only CR status write is the TigeraStatus block's |
| ReconcileGuarantees.ErrorsAndDegraded | pkg/controller/ccs/ccs_controller.go:245-486 | once the CR is found, every error returned names the check that failed. The pass has set Degraded for that check, with its reason, except for four errors returned without setting it: the TigeraStatus read, the CR status write of that block, the tenant namespaces, and the final Ready write (which comes after Degraded was cleared) |
| ReconcileGuarantees.FoundPassGate | pkg/controller/ccs/ccs_controller.go:226-239 | a pass that found the CR never ends as if it were missing |
| ReconcileGuarantees.FoundCallsReplay | pkg/controller/ccs/ccs_controller.go:239-486 | replaying OnCRFound and a gate's calls from any state records the CR as present, and sets, clears or keeps Degraded as the gate says |
| ReconcileGuarantees.StatusAfterPass | pkg/controller/ccs/ccs_controller.go:239-486 | after a pass that found the CR, from any status state, the CR is recorded as present. Degraded then holds the reason and check of the gate that set it, is cleared when the pass got through the license check at the end, and is left as it was when the pass returned its error without touching it |

## Left out

- Controller set-up (`Add`, line 57, and `newReconciler`, line 154) and the watches are not modelled. Neither are the goroutines that wait for the tier and license APIs. The two ready flags are booleans in `Observations`.
- The pass's own concurrency and its context are not modelled, nor the requeue timing: `RequeueAfterStandardRetry` stands for `utils.StandardRetry` without its duration.
- The collaborators are opaque. Their outcomes are inputs:
  - the certificate manager (`certificatemanager.Create`, `GetCertificate`, `CreateTrustedBundle`, `LoadMultiTenantTrustedBundleWithRootCertificates`, `GetOrCreateKeyPair`);
  - `utils.GetTenant`, `GetInstallation`, `GetNetworkingPullSecrets`, `GetManagementCluster`, `GetManagementClusterConnection`, `GetAuthentication`, `GetKeyValidatorConfig` and `IsAPIServerReady`;
  - `helper.TenantNamespaces`, `imageset.ApplyImageSet`, the component handler's `CreateOrUpdateOrDelete`, and `status.IsAvailable`.
- What the collaborators build is not modelled: the certificates' contents, the rendered objects (`ccsrender.CCS`, `CreateNamespace`, `CertificateManagement`) and what the component handler writes to the cluster. The snapshot records only the fields the pass decides: the trusted bundle's source, the cluster's role, the license flag and the CR.
- The namespace helper (install and truth namespaces) and the `openshift`, `clusterDomain` and `externalElastic` settings only feed the renderer and the certificate manager, so they are not modelled.
- Log output is not modelled, and neither are the messages passed to `SetDegraded`; a Degraded entry records its reason and the check that failed. The message of line 358 names Linseed's own secret even when the Voltron copy was read; that difference is not visible in this model.
- Four status manager calls are not modelled: the deferred `SetMetaData` (line 243), `AddToStatusManager` (line 391), the status registration the component handler makes, and the TigeraStatus condition merging, which is commented out at line 252.
- A missing ManagementCluster, ManagementClusterConnection or certificate is a `NotFound` observation, standing for the nil object those getters return; an error other than NotFound is `Err`.
- The Tenant's `NotFound` is the NotFound error `utils.GetTenant` returns (lines 216-219), which ends the pass. A nil Tenant returned with no error goes on to the CR read, and is modelled as `Ok`. The Tenant value itself only feeds the certificate manager and the renderer, so it is not modelled.
- The API types (`api/v1`) appear only as the fields the pass reads (the CR's key and `Status.State`, the Authentication's `Status.State`). The mock status manager (`pkg/controller/status/mock.go`) is not part of this model.
- The order of the checks follows the code (`ReconcileGuarantees.BackgroundGates`, `ReconcileGuarantees.InstallationGates`), in which the ManagementCluster and ManagementClusterConnection conflict is checked only after the API server, tier, license, Installation and pull-secret checks (lines 259-330). So the conflict does not take precedence over the other dependency states. An API server that is not ready, for example, ends the pass with Done before the conflict is looked at.
- Status.Step: the status manager's implementation is not part of this model, and only the calls the controller makes are visible. `StatusView` and the effect `Step` gives each call are an assumed abstraction of it: SetDegraded overwrites the Degraded entry, ClearDegraded clears it, and OnCRFound and OnCRNotFound set the CR-exists flag and leave Degraded alone. Several contracts hold only under this assumption: the `status.View()` clause of `ReconcileCCS.Reconcile`, `ReplayOverwrites`, `ReplayIdempotent`, `FoundCallsReplay` and `StatusAfterPass`.
- The order between different kinds of effect is not captured. `Effects` keeps reads, status calls, rendered snapshots, applies and CR status writes in five separate sequences, each in order. For example, the model records that OnCRFound is the first status call, but not where it falls among the reads. Nor does it record that ClearDegraded (line 472) comes before IsAvailable (line 474).
