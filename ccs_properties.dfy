/** Facts about the stage functions and Resume that the guarantees of a
    whole pass are built from: the result and the status calls each check
    leads to, which check stops a phase, and how a pass that gets past a
    phase is the effects of that phase followed by the rest. */
module CcsProperties {
  import opened Operator
  import opened Status
  import opened CcsController

  /** What Reconcile returns once it has stopped at g. */
  function Disposition(g: Gate): Outcome
  {
    match g
    case NoNamespace => Done
    case TenantMissing => Done
    case CcsMissing => Done
    case APIServerNotReady => Done
    case LinseedCertificatePending => Done
    case AuthenticationNotReady => Done
    case FeatureNotLicensed => Done
    case TierWatchPending => RequeueAfterStandardRetry
    case TierMissing => RequeueAfterStandardRetry
    case LicenseAPIPending => RequeueAfterStandardRetry
    case LicenseMissing => RequeueAfterStandardRetry
    case LicenseQuery => RequeueAfterStandardRetry
    case NotAvailable => RequeueAfterStandardRetry
    case _ => Error(g)
  }

  /** The reason SetDegraded is given when the pass stops at g; None when
      the controller does not set Degraded there. */
  function DegradedReason(g: Gate): Option<Reason>
  {
    match g
    case TenantQuery => Some(ResourceReadError)
    case CcsQuery => Some(ResourceReadError)
    case TierQuery => Some(ResourceReadError)
    case LicenseQuery => Some(ResourceReadError)
    case InstallationQuery => Some(ResourceReadError)
    case PullSecretsQuery => Some(ResourceReadError)
    case ManagementClusterQuery => Some(ResourceReadError)
    case ConnectionQuery => Some(ResourceReadError)
    case TenantBundleQuery => Some(ResourceReadError)
    case AuthenticationQuery => Some(ResourceReadError)
    case APIServerNotReady => Some(ResourceNotReady)
    case TierWatchPending => Some(ResourceNotReady)
    case TierMissing => Some(ResourceNotReady)
    case LicenseAPIPending => Some(ResourceNotReady)
    case LinseedCertificatePending => Some(ResourceNotReady)
    case AuthenticationNotReady => Some(ResourceNotReady)
    case LicenseMissing => Some(ResourceNotFound)
    case InstallationMissing => Some(ResourceNotFound)
    case TopologyConflict => Some(ResourceValidationError)
    case ManagerTLSQuery => Some(ResourceValidationError)
    case LinseedCertificateQuery => Some(ResourceValidationError)
    case APIKeyPairQuery => Some(ResourceValidationError)
    case KeyValidatorQuery => Some(ResourceValidationError)
    case FeatureNotLicensed => Some(ResourceValidationError)
    case CertificateAuthority => Some(ResourceCreateError)
    case ImageSetUpdate => Some(ResourceUpdateError)
    case ComponentApply(_) => Some(ResourceUpdateError)
    case _ => None
  }

  /** The status calls made at the point where the pass stops. */
  function EndCalls(gate: Option<Gate>): seq<StatusCall>
  {
    match gate
    case None => [DegradedCleared]
    case Some(g) =>
      if DegradedReason(g).Some? then [DegradedSet(DegradedReason(g).value, g)]
      else if g == CcsMissing then [CRNotFound]
      else if g == NotAvailable || g == StatusUpdate then [DegradedCleared]
      else []
  }

  /** A run a stage halts with obeys the tables: it returns what the gate
      it stopped at calls for and makes that gate's status calls. */
  predicate Tabled(r: Run)
  {
    r.gate.Some? && r.outcome == Disposition(r.gate.value) && r.fx.calls == EndCalls(r.gate)
  }

  predicate StageTabled<T>(s: StageResult<T>)
  {
    match s
    case Halt(r) => Tabled(r)
    case Pass(fx, _) => fx.calls == []
  }

  // ------------------------------------------------ when each check passes

  /** Lines 211-239: not a skipped request, a Tenant (or none needed), and the CR itself. */
  predicate CcsFound(multiTenant: bool, request: Request, obs: Observations)
  {
    !(multiTenant && request.namespace == "") && obs.tenant.Ok?
    && GetCCS(obs, multiTenant, request.namespace).Ok?
  }

  /** Lines 245-257: the TigeraStatus block passes (or does not apply). */
  predicate ConditionsReported(request: Request, obs: Observations)
  {
    !NamesTigeraStatus(request) || (obs.tigeraStatus.Ok? && !obs.conditionsUpdateFails)
  }

  /** Lines 259-295: the API server, the tier watch, the tier, the license API and the license are all there. */
  predicate BackgroundReady(obs: Observations)
  {
    obs.apiServerReady && obs.tierWatchReady && obs.tier.Ok? && obs.licenseApiReady && obs.license.Ok?
  }

  /** Lines 297-330: the installation and the pull secrets were read, the
      two cluster-role objects were read without error, and at most one of them exists. */
  predicate InstallationReady(obs: Observations)
  {
    obs.installation.Ok? && !obs.pullSecretsFail
    && !obs.managementCluster.Err? && !obs.managementClusterConnection.Err?
    && !(obs.managementCluster.Ok? && obs.managementClusterConnection.Ok?)
  }

  /** The cluster's role once the installation checks passed. */
  function TopologyIn(obs: Observations): Topology
    requires InstallationReady(obs)
  {
    TopologyOf(obs.managementCluster.Ok?, obs.managementClusterConnection.Ok?)
  }

  /** Lines 332-362: the certificate manager, the manager's TLS certificate
      on a management cluster, and the Linseed certificate. */
  predicate CertificatesReady(obs: Observations, t: Topology)
  {
    !obs.certificateManagerFails && !(t == Management && obs.managerInternalTls.Err?)
    && CertificateAt(obs, LinseedCertLocation(t)).Ok?
  }

  /** Lines 363-391: the tenant's bundle (multi-tenant only) and the API key pair. */
  predicate BundleReady(multiTenant: bool, obs: Observations)
  {
    !(multiTenant && obs.tenantBundleFails) && !obs.keyPairFails
  }

  /** Lines 393-402: no Authentication, or one that is Ready. */
  predicate AuthenticationReady(obs: Observations)
  {
    obs.authentication.NotFound? || obs.authentication == Ok(TigeraStatusReady)
  }

  /** Lines 404-446: the tenant namespaces, the key validator and the image set. */
  predicate RenderReady(obs: Observations)
  {
    !obs.tenantNamespacesFail && !obs.keyValidatorFails && !obs.imageSetFails
  }

  /** The pass gets as far as the certificate manager. */
  predicate ReachesCertificates(multiTenant: bool, request: Request, obs: Observations)
  {
    CcsFound(multiTenant, request, obs) && ConditionsReported(request, obs)
    && BackgroundReady(obs) && InstallationReady(obs)
  }

  /** The pass gets as far as the apply loop. */
  predicate ReachesApply(multiTenant: bool, request: Request, obs: Observations)
  {
    ReachesCertificates(multiTenant, request, obs) && CertificatesReady(obs, TopologyIn(obs))
    && BundleReady(multiTenant, obs) && AuthenticationReady(obs) && RenderReady(obs)
  }

  /** The pass writes Ready when it stops at no gate or at the failed Ready write. */
  predicate WritesReady(r: Run)
  {
    r.gate.None? || r.gate == Some(StatusUpdate)
  }

  /** The reads a pass makes before it creates the certificate manager. */
  predicate FrontLookup(l: Lookup)
  {
    l.GetTenant? || l.GetCR? || l.GetTigeraStatus? || l.CheckAPIServer? || l.GetTier? || l.FetchLicense?
    || l.GetInstallation? || l.GetPullSecrets? || l.GetManagementCluster? || l.GetManagementClusterConnection?
  }

  /** Only reads made before the certificate manager, and nothing rendered or applied. */
  predicate FrontOnly(fx: Effects)
  {
    (forall l :: l in fx.lookups ==> FrontLookup(l)) && fx.rendered == [] && fx.applied == []
  }

  /** The reads of a pass that gets as far as the certificate manager, before it. */
  function FrontLookups(multiTenant: bool, request: Request): seq<Lookup>
  {
    [GetTenant, GetCR(CcsKey(multiTenant, request.namespace))]
    + (if NamesTigeraStatus(request) then [GetTigeraStatus] else [])
    + BackgroundLookups
  }

  const BackgroundLookups: seq<Lookup> :=
    [CheckAPIServer, GetTier, FetchLicense, GetInstallation, GetPullSecrets, GetManagementCluster,
     GetManagementClusterConnection]

  /** The CR status write-back of the TigeraStatus block, when it is made. */
  function FrontUpdates(multiTenant: bool, request: Request, obs: Observations): seq<Ccs>
  {
    if CcsFound(multiTenant, request, obs) && NamesTigeraStatus(request) && obs.tigeraStatus.Ok?
    then [GetCCS(obs, multiTenant, request.namespace).value] else []
  }

  // ---------------------------------------------------------------- stages

  lemma {:induction false} LookupStageTabled(multiTenant: bool, request: Request, obs: Observations)
    ensures var s := LookupStage(multiTenant, request, obs); (s.Halt? ==> Tabled(s.run))
  {
  }

  lemma {:induction false} LookupStageFacts(multiTenant: bool, request: Request, obs: Observations)
    ensures var s := LookupStage(multiTenant, request, obs);
      && (s.Pass? <==> CcsFound(multiTenant, request, obs))
      && (s.Pass? ==> s.value == GetCCS(obs, multiTenant, request.namespace).value && s.fx.calls == [CRFound])
      && (multiTenant && request.namespace == "" ==> s.Performed() == NoEffects)
      && (s.Performed().lookups == [] || s.Performed().lookups[0] == GetTenant)
      && (|s.Performed().lookups| > 1 ==> s.Performed().lookups == [GetTenant, GetCR(CcsKey(multiTenant, request.namespace))])
      && s.Performed().rendered == [] && s.Performed().applied == [] && s.Performed().updates == []
  {
  }
  lemma {:induction false} TigeraStatusStageTabled(request: Request, obs: Observations, instance: Ccs)
    ensures var s := TigeraStatusStage(request, obs, instance); StageTabled(s)
  {
  }

  lemma {:induction false} TigeraStatusStageFacts(request: Request, obs: Observations, instance: Ccs)
    ensures var s := TigeraStatusStage(request, obs, instance);
      && (s.Pass? <==> ConditionsReported(request, obs))
      && s.Performed().updates == (if NamesTigeraStatus(request) && obs.tigeraStatus.Ok? then [instance] else [])
      && s.Performed().lookups == (if NamesTigeraStatus(request) then [GetTigeraStatus] else [])
      && s.Performed().rendered == [] && s.Performed().applied == []
  {
  }

  lemma {:induction false} GateStageTabled(obs: Observations)
    ensures var s := GateStage(obs); StageTabled(s)
  {
  }

  lemma {:induction false} GateStageFacts(obs: Observations)
    ensures var s := GateStage(obs);
      && (s.Pass? <==> BackgroundReady(obs))
      && (s.Pass? ==> s.value == obs.license.value)
      && s.Performed().rendered == [] && s.Performed().applied == [] && s.Performed().updates == []
      && (forall l :: l in s.Performed().lookups ==> l in [CheckAPIServer, GetTier, FetchLicense])
  {
  }

  lemma {:induction false} InstallationStageTabled(obs: Observations)
    ensures var s := InstallationStage(obs); StageTabled(s)
  {
  }

  lemma {:induction false} InstallationStageFacts(obs: Observations)
    ensures var s := InstallationStage(obs);
      && (s.Pass? <==> InstallationReady(obs))
      && (s.Pass? ==> (s.value == Management <==> obs.managementCluster.Ok?)
                      && (s.value == Managed <==> obs.managementClusterConnection.Ok?))
      && (obs.managementCluster.Ok? && obs.managementClusterConnection.Ok?
          && GetManagementClusterConnection in s.Performed().lookups
          ==> s.Halt? && s.run.gate == Some(TopologyConflict))
      && s.Performed().rendered == [] && s.Performed().applied == [] && s.Performed().updates == []
      && (forall l :: l in s.Performed().lookups
                      ==> l in [GetInstallation, GetPullSecrets, GetManagementCluster, GetManagementClusterConnection])
  {
  }

  lemma {:induction false} CertificateStageTabled(obs: Observations, t: Topology)
    ensures var s := CertificateStage(obs, t); StageTabled(s)
  {
  }

  lemma {:induction false} CertificateStageFacts(obs: Observations, t: Topology)
    ensures var s := CertificateStage(obs, t);
      && (s.Pass? <==> CertificatesReady(obs, t))
      && (GetCertificate(ManagerInternalTLS) in s.Performed().lookups <==> t == Management && !obs.certificateManagerFails)
      && (GetCertificate(VoltronLinseedPublicCert) in s.Performed().lookups ==> t == Managed)
      && (GetCertificate(TigeraLinseedSecret) in s.Performed().lookups ==> t != Managed)
      && (!obs.certificateManagerFails && !(t == Management && obs.managerInternalTls.Err?)
          ==> GetCertificate(LinseedCertLocation(t)) in s.Performed().lookups)
      && s.Performed().lookups != [] && s.Performed().lookups[0] == CreateCertificateManager
      && s.Performed().rendered == [] && s.Performed().applied == [] && s.Performed().updates == []
  {
  }

  lemma {:induction false} BundleStageTabled(multiTenant: bool, obs: Observations, t: Topology)
    ensures var s := BundleStage(multiTenant, obs, t); StageTabled(s)
  {
  }

  lemma {:induction false} BundleStageFacts(multiTenant: bool, obs: Observations, t: Topology)
    ensures var s := BundleStage(multiTenant, obs, t);
      && (s.Pass? <==> BundleReady(multiTenant, obs))
      && (s.Pass? ==> (s.value.TenantBundle? <==> multiTenant))
      && (s.Pass? && !multiTenant ==> s.value.linseed == LinseedCertLocation(t)
                                      && (s.value.withManagerTls <==> t == Management && obs.managerInternalTls.Ok?))
      && s.Performed().rendered == [] && s.Performed().applied == [] && s.Performed().updates == []
      && (forall l :: l in s.Performed().lookups ==> l in [LoadTenantBundle, GetOrCreateKeyPair])
  {
  }

  lemma {:induction false} AuthenticationStageTabled(obs: Observations)
    ensures var s := AuthenticationStage(obs); StageTabled(s)
  {
  }

  lemma {:induction false} AuthenticationStageFacts(obs: Observations)
    ensures var s := AuthenticationStage(obs);
      && (s.Pass? <==> AuthenticationReady(obs))
      && (obs.authentication.Ok? && obs.authentication.value != TigeraStatusReady
          ==> s.Halt? && s.run.gate == Some(AuthenticationNotReady))
      && s.Performed() == Reads([GetAuthentication]).(calls := s.Performed().calls)
  {
  }

  lemma {:induction false} RenderStageTabled(obs: Observations, instance: Ccs, license: License, t: Topology, bundle: TrustedBundle)
    ensures var s := RenderStage(obs, instance, license, t, bundle); StageTabled(s)
  {
  }

  lemma {:induction false} RenderStageFacts(obs: Observations, instance: Ccs, license: License, t: Topology, bundle: TrustedBundle)
    ensures var s := RenderStage(obs, instance, license, t, bundle);
      && (s.Pass? <==> RenderReady(obs))
      && s.Performed().rendered
         == (if !obs.tenantNamespacesFail && !obs.keyValidatorFails
             then [Config(bundle, t, !license.complianceActive, instance)] else [])
      && (s.Pass? ==> s.value == s.Performed().rendered[0])
      && s.Performed().applied == [] && s.Performed().updates == []
      && (ApplyImageSet in s.Performed().lookups <==> !obs.tenantNamespacesFail && !obs.keyValidatorFails)
  {
  }

  lemma {:induction false} ReportTabled(a: Applied, obs: Observations, config: Config)
    ensures var r := Report(a, obs, config);
      && r.fx.calls == EndCalls(r.gate)
      && (r.gate.Some? ==> r.outcome == Disposition(r.gate.value))
      && (r.gate.None? ==> r.outcome == Done)
  {
  }

  lemma {:induction false} ReportFacts(a: Applied, obs: Observations, config: Config)
    ensures var r := Report(a, obs, config);
      && r.fx.applied == a.attempted && r.fx.lookups == [] && r.fx.rendered == []
      && ((r.gate.Some? && r.gate.value.ComponentApply?) <==> a.failed.Some?)
      && (a.failed.Some? ==> r.gate == Some(ComponentApply(a.failed.value)))
      && (WritesReady(r) <==> a.failed.None? && !config.hasNoLicense && obs.available)
      && r.fx.updates == (if WritesReady(r) then [config.instance.(state := TigeraStatusReady)] else [])
      && (WritesReady(r) ==> (r.gate.None? <==> !obs.statusUpdateFails))
      && (a.failed.None? && config.hasNoLicense ==> r.gate == Some(FeatureNotLicensed))
      && (a.failed.None? && !config.hasNoLicense && !obs.available ==> r.gate == Some(NotAvailable))
  {
  }

  // ---------------------------------------------------------------- the whole pass

  /** Every pass returns what the gate it stopped at calls for, and Done
      when it stopped at none. */
  lemma {:induction false} ResumeOutcome(multiTenant: bool, obs: Observations, p: Phase)
    ensures var r := Resume(multiTenant, obs, p);
      && (r.gate.Some? ==> r.outcome == Disposition(r.gate.value))
      && (r.gate.None? ==> r.outcome == Done)
    decreases Remaining(p)
  {
    match p
    case AtLookup(request) =>
      LookupStageTabled(multiTenant, request, obs);
      match LookupStage(multiTenant, request, obs) {
      case Halt(_) =>
      case Pass(_, instance) => ResumeOutcome(multiTenant, obs, AtTigeraStatus(request, instance));
      }
    case AtTigeraStatus(request, instance) =>
      TigeraStatusStageTabled(request, obs, instance);
      match TigeraStatusStage(request, obs, instance) {
      case Halt(_) =>
      case Pass(_, _) => ResumeOutcome(multiTenant, obs, AtGates(instance));
      }
    case AtGates(instance) =>
      GateStageTabled(obs);
      match GateStage(obs) {
      case Halt(_) =>
      case Pass(_, license) => ResumeOutcome(multiTenant, obs, AtInstallation(instance, license));
      }
    case AtInstallation(instance, license) =>
      InstallationStageTabled(obs);
      match InstallationStage(obs) {
      case Halt(_) =>
      case Pass(_, t) => ResumeOutcome(multiTenant, obs, AtCertificates(instance, license, t));
      }
    case _ =>
      LateOutcome(multiTenant, obs, p);
  }

  /** ResumeOutcome from the certificate manager on. */
  lemma {:induction false} LateOutcome(multiTenant: bool, obs: Observations, p: Phase)
    requires !(p.AtLookup? || p.AtTigeraStatus? || p.AtGates? || p.AtInstallation?)
    ensures var r := Resume(multiTenant, obs, p);
      && (r.gate.Some? ==> r.outcome == Disposition(r.gate.value))
      && (r.gate.None? ==> r.outcome == Done)
    decreases Remaining(p)
  {
    match p
    case AtCertificates(instance, license, t) =>
      CertificateStageTabled(obs, t);
      match CertificateStage(obs, t) {
      case Halt(_) =>
      case Pass(_, _) => LateOutcome(multiTenant, obs, AtBundle(instance, license, t));
      }
    case AtBundle(instance, license, t) =>
      BundleStageTabled(multiTenant, obs, t);
      match BundleStage(multiTenant, obs, t) {
      case Halt(_) =>
      case Pass(_, bundle) => LateOutcome(multiTenant, obs, AtAuthentication(instance, license, t, bundle));
      }
    case AtAuthentication(instance, license, t, bundle) =>
      AuthenticationStageTabled(obs);
      match AuthenticationStage(obs) {
      case Halt(_) =>
      case Pass(_, _) => LateOutcome(multiTenant, obs, AtRender(instance, license, t, bundle));
      }
    case AtRender(instance, license, t, bundle) =>
      RenderStageTabled(obs, instance, license, t, bundle);
      match RenderStage(obs, instance, license, t, bundle) {
      case Halt(_) =>
      case Pass(_, config) => LateOutcome(multiTenant, obs, AtApply(config));
      }
    case AtApply(config) =>
      ReportTabled(ApplyUntilFailure(Components, obs.applyFails), obs, config);
  }

  /** The status calls of every pass: OnCRFound when the lookup stage found
      the CR, then the calls of the gate the pass stopped at. */
  lemma {:induction false} ResumeCalls(multiTenant: bool, obs: Observations, p: Phase)
    ensures var r := Resume(multiTenant, obs, p);
      r.fx.calls == (if p.AtLookup? && CcsFound(multiTenant, p.request, obs) then [CRFound] else []) + EndCalls(r.gate)
    decreases Remaining(p)
  {
    match p
    case AtLookup(request) =>
      LookupStageTabled(multiTenant, request, obs);
      LookupStageFacts(multiTenant, request, obs);
      match LookupStage(multiTenant, request, obs) {
      case Halt(_) =>
      case Pass(_, instance) => ResumeCalls(multiTenant, obs, AtTigeraStatus(request, instance));
      }
    case AtTigeraStatus(request, instance) =>
      TigeraStatusStageTabled(request, obs, instance);
      match TigeraStatusStage(request, obs, instance) {
      case Halt(_) =>
      case Pass(_, _) => ResumeCalls(multiTenant, obs, AtGates(instance));
      }
    case AtGates(instance) =>
      GateStageTabled(obs);
      match GateStage(obs) {
      case Halt(_) =>
      case Pass(_, license) => ResumeCalls(multiTenant, obs, AtInstallation(instance, license));
      }
    case AtInstallation(instance, license) =>
      InstallationStageTabled(obs);
      match InstallationStage(obs) {
      case Halt(_) =>
      case Pass(_, t) => ResumeCalls(multiTenant, obs, AtCertificates(instance, license, t));
      }
    case _ =>
      LateCalls(multiTenant, obs, p);
  }

  /** From the certificate manager on, the status calls are those of the gate alone. */
  lemma {:induction false} LateCalls(multiTenant: bool, obs: Observations, p: Phase)
    requires !(p.AtLookup? || p.AtTigeraStatus? || p.AtGates? || p.AtInstallation?)
    ensures var r := Resume(multiTenant, obs, p);
      r.fx.calls == EndCalls(r.gate)
    decreases Remaining(p)
  {
    match p
    case AtCertificates(instance, license, t) =>
      CertificateStageTabled(obs, t);
      match CertificateStage(obs, t) {
      case Halt(_) =>
      case Pass(_, _) => LateCalls(multiTenant, obs, AtBundle(instance, license, t));
      }
    case AtBundle(instance, license, t) =>
      BundleStageTabled(multiTenant, obs, t);
      match BundleStage(multiTenant, obs, t) {
      case Halt(_) =>
      case Pass(_, bundle) => LateCalls(multiTenant, obs, AtAuthentication(instance, license, t, bundle));
      }
    case AtAuthentication(instance, license, t, bundle) =>
      AuthenticationStageTabled(obs);
      match AuthenticationStage(obs) {
      case Halt(_) =>
      case Pass(_, _) => LateCalls(multiTenant, obs, AtRender(instance, license, t, bundle));
      }
    case AtRender(instance, license, t, bundle) =>
      RenderStageTabled(obs, instance, license, t, bundle);
      match RenderStage(obs, instance, license, t, bundle) {
      case Halt(_) =>
      case Pass(_, config) => LateCalls(multiTenant, obs, AtApply(config));
      }
    case AtApply(config) =>
      ReportTabled(ApplyUntilFailure(Components, obs.applyFails), obs, config);
  }

  /** Only the lookup stops at CcsMissing: once the CR has been read, no
      later check reports it missing. */
  lemma {:induction false} FoundStaysFound(multiTenant: bool, obs: Observations, p: Phase)
    requires !p.AtLookup?
    ensures Resume(multiTenant, obs, p).gate != Some(CcsMissing)
    decreases Remaining(p)
  {
    match p
    case AtTigeraStatus(request, instance) =>
      if TigeraStatusStage(request, obs, instance).Pass? { FoundStaysFound(multiTenant, obs, AtGates(instance)); }
    case AtGates(instance) =>
      match GateStage(obs) {
      case Halt(_) =>
      case Pass(_, license) => FoundStaysFound(multiTenant, obs, AtInstallation(instance, license));
      }
    case AtInstallation(instance, license) =>
      match InstallationStage(obs) {
      case Halt(_) =>
      case Pass(_, t) => FoundStaysFound(multiTenant, obs, AtCertificates(instance, license, t));
      }
    case AtCertificates(instance, license, t) =>
      match CertificateStage(obs, t) {
      case Halt(_) =>
      case Pass(_, _) => FoundStaysFound(multiTenant, obs, AtBundle(instance, license, t));
      }
    case AtBundle(instance, license, t) =>
      match BundleStage(multiTenant, obs, t) {
      case Halt(_) =>
      case Pass(_, bundle) => FoundStaysFound(multiTenant, obs, AtAuthentication(instance, license, t, bundle));
      }
    case AtAuthentication(instance, license, t, bundle) =>
      match AuthenticationStage(obs) {
      case Halt(_) =>
      case Pass(_, _) => FoundStaysFound(multiTenant, obs, AtRender(instance, license, t, bundle));
      }
    case AtRender(instance, license, t, bundle) =>
      match RenderStage(obs, instance, license, t, bundle) {
      case Halt(_) =>
      case Pass(_, config) => FoundStaysFound(multiTenant, obs, AtApply(config));
      }
    case AtApply(config) =>
  }

  // ------------------------------------------------------- up to the certificate manager

  /** Lines 211-257 passed: the pass is the CR lookup and the TigeraStatus block, then the rest from the gates. */
  lemma {:induction false} FrontPasses(multiTenant: bool, request: Request, obs: Observations, instance: Ccs)
    requires CcsFound(multiTenant, request, obs) && ConditionsReported(request, obs)
    requires instance == GetCCS(obs, multiTenant, request.namespace).value
    ensures var r := Resume(multiTenant, obs, AtLookup(request));
      var d := Resume(multiTenant, obs, AtGates(instance));
      && r.gate == d.gate && r.outcome == d.outcome
      && r.fx.lookups == [GetTenant, GetCR(CcsKey(multiTenant, request.namespace))]
                         + (if NamesTigeraStatus(request) then [GetTigeraStatus] else []) + d.fx.lookups
      && r.fx.calls == [CRFound] + d.fx.calls
      && r.fx.rendered == d.fx.rendered && r.fx.applied == d.fx.applied
      && r.fx.updates == (if NamesTigeraStatus(request) then [instance] else []) + d.fx.updates
  {
    LookupPasses(multiTenant, request, obs);
    TigeraStatusPasses(multiTenant, request, obs, instance);
    AfterAfter(Effects([GetTenant, GetCR(CcsKey(multiTenant, request.namespace))], [CRFound], [], [], []),
               if NamesTigeraStatus(request) then Effects([GetTigeraStatus], [], [], [], [instance]) else NoEffects,
               Resume(multiTenant, obs, AtGates(instance)));
  }

  /** Effects a, then b, then the run d. */
  lemma {:induction false} AfterAfter(a: Effects, b: Effects, d: Run)
    ensures var r := After(a, After(b, d));
      && r.gate == d.gate && r.outcome == d.outcome
      && r.fx.lookups == a.lookups + b.lookups + d.fx.lookups
      && r.fx.calls == a.calls + b.calls + d.fx.calls
      && r.fx.rendered == a.rendered + b.rendered + d.fx.rendered
      && r.fx.applied == a.applied + b.applied + d.fx.applied
      && r.fx.updates == a.updates + b.updates + d.fx.updates
  {
  }

  /** Lines 211-239 find the CR: their effects, then the rest from the TigeraStatus block. */
  lemma {:induction false} LookupPasses(multiTenant: bool, request: Request, obs: Observations)
    requires CcsFound(multiTenant, request, obs)
    ensures Resume(multiTenant, obs, AtLookup(request))
         == After(Effects([GetTenant, GetCR(CcsKey(multiTenant, request.namespace))], [CRFound], [], [], []),
                  Resume(multiTenant, obs, AtTigeraStatus(request, GetCCS(obs, multiTenant, request.namespace).value)))
  {
  }

  /** Lines 245-257 pass: their effects, then the rest from the gates. */
  lemma {:induction false} TigeraStatusPasses(multiTenant: bool, request: Request, obs: Observations, instance: Ccs)
    requires ConditionsReported(request, obs)
    ensures Resume(multiTenant, obs, AtTigeraStatus(request, instance))
         == After(if NamesTigeraStatus(request) then Effects([GetTigeraStatus], [], [], [], [instance]) else NoEffects,
                  Resume(multiTenant, obs, AtGates(instance)))
  {
  }

  /** Lines 259-330 do not all pass: the pass stops before the certificate manager. */
  lemma {:induction false} GatesStop(multiTenant: bool, obs: Observations, instance: Ccs)
    requires !(BackgroundReady(obs) && InstallationReady(obs))
    ensures var r := Resume(multiTenant, obs, AtGates(instance));
      FrontOnly(r.fx) && r.fx.updates == [] && !WritesReady(r)
  {
    GateStageFacts(obs);
    InstallationStageFacts(obs);
  }

  /** Lines 259-330 pass: seven reads, then the rest from the certificate manager. */
  lemma {:induction false} GatesPass(multiTenant: bool, obs: Observations, instance: Ccs)
    requires BackgroundReady(obs) && InstallationReady(obs)
    ensures var r := Resume(multiTenant, obs, AtGates(instance));
      var d := Resume(multiTenant, obs, AtCertificates(instance, obs.license.value, TopologyIn(obs)));
      && r.gate == d.gate && r.outcome == d.outcome
      && r.fx.lookups == BackgroundLookups + d.fx.lookups
      && r.fx.calls == d.fx.calls && r.fx.rendered == d.fx.rendered && r.fx.applied == d.fx.applied
      && r.fx.updates == d.fx.updates
  {
    GateStageFacts(obs);
    InstallationStageFacts(obs);
  }

  // ------------------------------------------------------- from the certificate manager on

  /** Lines 332-362 do not all pass: nothing is rendered, applied or written back. */
  lemma {:induction false} CertificatesStop(multiTenant: bool, obs: Observations, instance: Ccs, license: License, t: Topology)
    requires !CertificatesReady(obs, t)
    ensures var r := Resume(multiTenant, obs, AtCertificates(instance, license, t));
      && r.fx.lookups == CertificateStage(obs, t).Performed().lookups
      && r.fx.rendered == [] && r.fx.applied == [] && r.fx.updates == [] && !WritesReady(r)
  {
    CertificateStageFacts(obs, t);
  }

  /** Lines 332-362 pass: the certificate reads, then the rest from the trusted bundle. */
  lemma {:induction false} CertificatesPass(multiTenant: bool, obs: Observations, instance: Ccs, license: License, t: Topology)
    requires CertificatesReady(obs, t)
    ensures var r := Resume(multiTenant, obs, AtCertificates(instance, license, t));
      var d := Resume(multiTenant, obs, AtBundle(instance, license, t));
      && r.gate == d.gate && r.outcome == d.outcome
      && r.fx.lookups == CertificateStage(obs, t).Performed().lookups + d.fx.lookups
      && r.fx.rendered == d.fx.rendered && r.fx.applied == d.fx.applied && r.fx.updates == d.fx.updates
  {
    CertificateStageFacts(obs, t);
  }

  /** Lines 363-391 do not all pass. */
  lemma {:induction false} BundleStop(multiTenant: bool, obs: Observations, instance: Ccs, license: License, t: Topology)
    requires !BundleReady(multiTenant, obs)
    ensures var r := Resume(multiTenant, obs, AtBundle(instance, license, t));
      && (forall l :: l in r.fx.lookups ==> l in [LoadTenantBundle, GetOrCreateKeyPair])
      && r.fx.rendered == [] && r.fx.applied == [] && r.fx.updates == [] && !WritesReady(r)
  {
    BundleStageFacts(multiTenant, obs, t);
  }

  /** Lines 363-391 pass: the bundle handed on is the one BundleFor describes. */
  lemma {:induction false} BundlePass(multiTenant: bool, obs: Observations, instance: Ccs, license: License, t: Topology)
    requires BundleReady(multiTenant, obs)
    ensures var r := Resume(multiTenant, obs, AtBundle(instance, license, t));
      var d := Resume(multiTenant, obs, AtAuthentication(instance, license, t, BundleFor(multiTenant, t, obs)));
      && r.gate == d.gate && r.outcome == d.outcome
      && r.fx.lookups == (if multiTenant then [LoadTenantBundle] else []) + [GetOrCreateKeyPair] + d.fx.lookups
      && r.fx.rendered == d.fx.rendered && r.fx.applied == d.fx.applied && r.fx.updates == d.fx.updates
  {
  }

  /** Lines 393-402 stop the pass. */
  lemma {:induction false} AuthenticationStop(multiTenant: bool, obs: Observations, instance: Ccs, license: License, t: Topology, bundle: TrustedBundle)
    requires !AuthenticationReady(obs)
    ensures var r := Resume(multiTenant, obs, AtAuthentication(instance, license, t, bundle));
      && r.fx.lookups == [GetAuthentication]
      && r.fx.rendered == [] && r.fx.applied == [] && r.fx.updates == [] && !WritesReady(r)
  {
  }

  /** Lines 393-402 pass. */
  lemma {:induction false} AuthenticationPass(multiTenant: bool, obs: Observations, instance: Ccs, license: License, t: Topology, bundle: TrustedBundle)
    requires AuthenticationReady(obs)
    ensures var r := Resume(multiTenant, obs, AtAuthentication(instance, license, t, bundle));
      var d := Resume(multiTenant, obs, AtRender(instance, license, t, bundle));
      && r.gate == d.gate && r.outcome == d.outcome
      && r.fx.lookups == [GetAuthentication] + d.fx.lookups
      && r.fx.rendered == d.fx.rendered && r.fx.applied == d.fx.applied && r.fx.updates == d.fx.updates
  {
  }

  /** Lines 404-446 stop the pass: nothing applied and no Ready write. */
  lemma {:induction false} RenderStop(multiTenant: bool, obs: Observations, instance: Ccs, license: License, t: Topology, bundle: TrustedBundle)
    requires !RenderReady(obs)
    ensures var r := Resume(multiTenant, obs, AtRender(instance, license, t, bundle));
      && r.fx.rendered == (if !obs.tenantNamespacesFail && !obs.keyValidatorFails
                           then [Config(bundle, t, !license.complianceActive, instance)] else [])
      && (forall l :: l in r.fx.lookups ==> l in [GetTenantNamespaces, GetKeyValidatorConfig, ApplyImageSet])
      && r.fx.applied == [] && r.fx.updates == [] && !WritesReady(r)
  {
    RenderStageFacts(obs, instance, license, t, bundle);
  }

  /** Lines 404-446 pass: the snapshot is rendered, then the apply loop and the final transitions. */
  lemma {:induction false} RenderPass(multiTenant: bool, obs: Observations, instance: Ccs, license: License, t: Topology, bundle: TrustedBundle)
    requires RenderReady(obs)
    ensures var r := Resume(multiTenant, obs, AtRender(instance, license, t, bundle));
      var config := Config(bundle, t, !license.complianceActive, instance);
      var d := FinalStage(obs, config);
      && r.gate == d.gate && r.outcome == d.outcome
      && r.fx.lookups == [GetTenantNamespaces, GetKeyValidatorConfig, ApplyImageSet]
      && r.fx.rendered == [config] && r.fx.applied == d.fx.applied && r.fx.updates == d.fx.updates
  {
    ReportFacts(ApplyUntilFailure(Components, obs.applyFails), obs, Config(bundle, t, !license.complianceActive, instance));
  }

  // ------------------------------------------------------- the phases chained

  /** Lines 211-257 do not all pass: the pass stops before the API server check. */
  lemma {:induction false} FrontStops(multiTenant: bool, request: Request, obs: Observations)
    requires !(CcsFound(multiTenant, request, obs) && ConditionsReported(request, obs))
    ensures var r := Resume(multiTenant, obs, AtLookup(request));
      FrontOnly(r.fx) && r.fx.updates == FrontUpdates(multiTenant, request, obs) && !WritesReady(r)
  {
    if CcsFound(multiTenant, request, obs) {
      TigeraStatusStops(multiTenant, request, obs);
    } else {
      LookupStops(multiTenant, request, obs);
    }
  }

  /** Lines 211-239 do not find the CR. */
  lemma {:induction false} LookupStops(multiTenant: bool, request: Request, obs: Observations)
    requires !CcsFound(multiTenant, request, obs)
    ensures var r := Resume(multiTenant, obs, AtLookup(request));
      FrontOnly(r.fx) && r.fx.updates == [] && !WritesReady(r)
  {
    LookupStageFacts(multiTenant, request, obs);
  }

  /** Lines 245-257 stop a pass that found the CR. */
  lemma {:induction false} TigeraStatusStops(multiTenant: bool, request: Request, obs: Observations)
    requires CcsFound(multiTenant, request, obs) && !ConditionsReported(request, obs)
    ensures var r := Resume(multiTenant, obs, AtLookup(request));
      FrontOnly(r.fx) && r.fx.updates == FrontUpdates(multiTenant, request, obs) && !WritesReady(r)
  {
    var instance := GetCCS(obs, multiTenant, request.namespace).value;
    LookupStageFacts(multiTenant, request, obs);
    TigeraStatusStageFacts(request, obs, instance);
    var s := TigeraStatusStage(request, obs, instance);
    assert Resume(multiTenant, obs, AtTigeraStatus(request, instance)) == s.run;
  }

  /** The configuration snapshot a pass that gets past the gates hands to the renderer. */
  function ConfigIn(multiTenant: bool, request: Request, obs: Observations): Config
    requires CcsFound(multiTenant, request, obs) && BackgroundReady(obs) && InstallationReady(obs)
  {
    var t := TopologyIn(obs);
    Config(BundleFor(multiTenant, t, obs), t, !obs.license.value.complianceActive,
           GetCCS(obs, multiTenant, request.namespace).value)
  }

  /** The certificate reads of a pass that gets as far as the certificate manager. */
  function CertificateLookups(obs: Observations, t: Topology): seq<Lookup>
  {
    CertificateStage(obs, t).Performed().lookups
  }

  /** A pass that gets as far as the certificate manager is the fixed front part, then the rest from there. */
  lemma {:induction false} ToCertificates(multiTenant: bool, request: Request, obs: Observations)
    requires ReachesCertificates(multiTenant, request, obs)
    ensures var r := Resume(multiTenant, obs, AtLookup(request));
      var d := Resume(multiTenant, obs, AtCertificates(GetCCS(obs, multiTenant, request.namespace).value,
                                                       obs.license.value, TopologyIn(obs)));
      && r.gate == d.gate && r.outcome == d.outcome
      && r.fx.lookups == FrontLookups(multiTenant, request) + d.fx.lookups
      && r.fx.rendered == d.fx.rendered && r.fx.applied == d.fx.applied
      && r.fx.updates == FrontUpdates(multiTenant, request, obs) + d.fx.updates
  {
    var instance := GetCCS(obs, multiTenant, request.namespace).value;
    FrontPasses(multiTenant, request, obs, instance);
    GatesPass(multiTenant, obs, instance);
  }

  /** The reads of the trusted-bundle stage once it passes. */
  function BundleLookups(multiTenant: bool): seq<Lookup>
  {
    (if multiTenant then [LoadTenantBundle] else []) + [GetOrCreateKeyPair]
  }

  /** A pass that gets past the certificate checks is the front part, the
      certificate reads, then the rest from the trusted bundle. */
  lemma {:induction false} ToBundle(multiTenant: bool, request: Request, obs: Observations)
    requires ReachesCertificates(multiTenant, request, obs) && CertificatesReady(obs, TopologyIn(obs))
    ensures var r := Resume(multiTenant, obs, AtLookup(request));
      var d := Resume(multiTenant, obs, AtBundle(GetCCS(obs, multiTenant, request.namespace).value,
                                                 obs.license.value, TopologyIn(obs)));
      && r.gate == d.gate && r.outcome == d.outcome
      && r.fx.lookups == FrontLookups(multiTenant, request) + CertificateLookups(obs, TopologyIn(obs)) + d.fx.lookups
      && r.fx.rendered == d.fx.rendered && r.fx.applied == d.fx.applied
      && r.fx.updates == FrontUpdates(multiTenant, request, obs) + d.fx.updates
  {
    ToCertificates(multiTenant, request, obs);
    CertificatesPass(multiTenant, obs, GetCCS(obs, multiTenant, request.namespace).value, obs.license.value, TopologyIn(obs));
  }

  /** A pass that gets as far as the tenant namespaces is the front part, the
      certificate, bundle and Authentication reads, then the rest from the renderer. */
  lemma {:induction false} ToRender(multiTenant: bool, request: Request, obs: Observations)
    requires ReachesCertificates(multiTenant, request, obs) && CertificatesReady(obs, TopologyIn(obs))
    requires BundleReady(multiTenant, obs) && AuthenticationReady(obs)
    ensures var r := Resume(multiTenant, obs, AtLookup(request));
      var config := ConfigIn(multiTenant, request, obs);
      var d := Resume(multiTenant, obs, AtRender(config.instance, obs.license.value, config.topology, config.bundle));
      && r.gate == d.gate && r.outcome == d.outcome
      && r.fx.lookups == FrontLookups(multiTenant, request) + CertificateLookups(obs, config.topology)
                         + BundleLookups(multiTenant) + [GetAuthentication] + d.fx.lookups
      && r.fx.rendered == d.fx.rendered && r.fx.applied == d.fx.applied
      && r.fx.updates == FrontUpdates(multiTenant, request, obs) + d.fx.updates
  {
    var instance := GetCCS(obs, multiTenant, request.namespace).value;
    var license := obs.license.value;
    var t := TopologyIn(obs);
    ToBundle(multiTenant, request, obs);
    BundlePass(multiTenant, obs, instance, license, t);
    AuthenticationPass(multiTenant, obs, instance, license, t, BundleFor(multiTenant, t, obs));
  }

  /** The reads a pass makes after the certificate checks. */
  predicate LateLookup(l: Lookup)
  {
    l in [LoadTenantBundle, GetOrCreateKeyPair, GetAuthentication, GetTenantNamespaces, GetKeyValidatorConfig, ApplyImageSet]
  }

  /** From the trusted bundle on, the pass makes only the later reads. */
  lemma {:induction false} LateReads(multiTenant: bool, obs: Observations, instance: Ccs, license: License, t: Topology)
    ensures forall l :: l in Resume(multiTenant, obs, AtBundle(instance, license, t)).fx.lookups ==> LateLookup(l)
  {
    if !BundleReady(multiTenant, obs) {
      BundleStop(multiTenant, obs, instance, license, t);
      return;
    }
    BundlePass(multiTenant, obs, instance, license, t);
    var bundle := BundleFor(multiTenant, t, obs);
    if !AuthenticationReady(obs) {
      AuthenticationStop(multiTenant, obs, instance, license, t, bundle);
      return;
    }
    AuthenticationPass(multiTenant, obs, instance, license, t, bundle);
    if !RenderReady(obs) {
      RenderStop(multiTenant, obs, instance, license, t, bundle);
    } else {
      RenderPass(multiTenant, obs, instance, license, t, bundle);
    }
  }

  lemma {:induction false} FrontLookupsAreFront(multiTenant: bool, request: Request)
    ensures forall l :: l in FrontLookups(multiTenant, request) ==> FrontLookup(l)
  {
  }

  /** The certificate reads, between front reads and later reads: the
      manager's TLS certificate is read exactly on a management cluster with
      a certificate manager, and the Linseed certificate from where the
      cluster's role says. */
  lemma {:induction false} CertificateReadsAmong(front: seq<Lookup>, rest: seq<Lookup>, obs: Observations, t: Topology)
    requires forall l :: l in front ==> FrontLookup(l)
    requires forall l :: l in rest ==> LateLookup(l)
    ensures var ls := front + CertificateStage(obs, t).Performed().lookups + rest;
      && (GetCertificate(ManagerInternalTLS) in ls <==> t == Management && !obs.certificateManagerFails)
      && (GetCertificate(VoltronLinseedPublicCert) in ls ==> t == Managed)
      && (GetCertificate(TigeraLinseedSecret) in ls ==> t != Managed)
      && (!obs.certificateManagerFails && !(t == Management && obs.managerInternalTls.Err?)
          ==> GetCertificate(LinseedCertLocation(t)) in ls)
  {
    CertificateStageFacts(obs, t);
  }

  /** Lines 332-362 at the phase of the certificate manager: which check stops the pass. */
  lemma {:induction false} CertificatePhaseGates(multiTenant: bool, obs: Observations, instance: Ccs, license: License, t: Topology)
    ensures var g := Resume(multiTenant, obs, AtCertificates(instance, license, t)).gate;
      var linseed := CertificateAt(obs, LinseedCertLocation(t));
      var tlsReadable := !(t == Management && obs.managerInternalTls.Err?);
      && (obs.certificateManagerFails ==> g == Some(CertificateAuthority))
      && (!obs.certificateManagerFails && !tlsReadable ==> g == Some(ManagerTLSQuery))
      && (!obs.certificateManagerFails && tlsReadable && linseed.Err? ==> g == Some(LinseedCertificateQuery))
      && (!obs.certificateManagerFails && tlsReadable && linseed.NotFound? ==> g == Some(LinseedCertificatePending))
  {
  }

  /** Lines 363-402 at the phase of the trusted bundle: which check stops the pass. */
  lemma {:induction false} BundlePhaseGates(multiTenant: bool, obs: Observations, instance: Ccs, license: License, t: Topology)
    ensures var g := Resume(multiTenant, obs, AtBundle(instance, license, t)).gate;
      && (multiTenant && obs.tenantBundleFails ==> g == Some(TenantBundleQuery))
      && (!(multiTenant && obs.tenantBundleFails) && obs.keyPairFails ==> g == Some(APIKeyPairQuery))
      && (BundleReady(multiTenant, obs) && obs.authentication.Err? ==> g == Some(AuthenticationQuery))
      && (BundleReady(multiTenant, obs) && obs.authentication.Ok? && obs.authentication.value != TigeraStatusReady
          ==> g == Some(AuthenticationNotReady))
  {
    if BundleReady(multiTenant, obs) {
      BundlePass(multiTenant, obs, instance, license, t);
    }
  }

  /** Lines 404-446 at the phase of the renderer: which check stops the pass. */
  lemma {:induction false} RenderPhaseGates(multiTenant: bool, obs: Observations, instance: Ccs, license: License, t: Topology, bundle: TrustedBundle)
    ensures var g := Resume(multiTenant, obs, AtRender(instance, license, t, bundle)).gate;
      && (obs.tenantNamespacesFail ==> g == Some(TenantNamespacesQuery))
      && (!obs.tenantNamespacesFail && obs.keyValidatorFails ==> g == Some(KeyValidatorQuery))
      && (!obs.tenantNamespacesFail && !obs.keyValidatorFails && obs.imageSetFails ==> g == Some(ImageSetUpdate))
  {
  }

  /** A pass that gets as far as the apply loop: the earlier reads, the one
      rendered snapshot, then the apply loop and the final transitions. */
  lemma {:induction false} ToApply(multiTenant: bool, request: Request, obs: Observations)
    requires ReachesApply(multiTenant, request, obs)
    ensures var r := Resume(multiTenant, obs, AtLookup(request));
      var config := ConfigIn(multiTenant, request, obs);
      var d := FinalStage(obs, config);
      && r.gate == d.gate && r.outcome == d.outcome
      && r.fx.rendered == [config] && r.fx.applied == d.fx.applied
      && r.fx.updates == FrontUpdates(multiTenant, request, obs) + d.fx.updates
  {
    var config := ConfigIn(multiTenant, request, obs);
    ToRender(multiTenant, request, obs);
    RenderPass(multiTenant, obs, config.instance, obs.license.value, config.topology, config.bundle);
  }

  /** A pass stopped by a gate before the certificate manager, or at it,
      applies nothing, writes back only what the TigeraStatus block wrote
      and does not write Ready. */
  lemma {:induction false} StopsBeforeBundle(multiTenant: bool, request: Request, obs: Observations)
    requires !ReachesCertificates(multiTenant, request, obs)
          || !CertificatesReady(obs, TopologyIn(obs))
    ensures var r := Resume(multiTenant, obs, AtLookup(request));
      r.fx.applied == [] && r.fx.updates == FrontUpdates(multiTenant, request, obs) && !WritesReady(r)
  {
    if !(CcsFound(multiTenant, request, obs) && ConditionsReported(request, obs)) {
      FrontStops(multiTenant, request, obs);
    } else if !(BackgroundReady(obs) && InstallationReady(obs)) {
      var instance := GetCCS(obs, multiTenant, request.namespace).value;
      FrontPasses(multiTenant, request, obs, instance);
      GatesStop(multiTenant, obs, instance);
    } else {
      ToCertificates(multiTenant, request, obs);
      CertificatesStop(multiTenant, obs, GetCCS(obs, multiTenant, request.namespace).value, obs.license.value, TopologyIn(obs));
    }
  }

  /** The same for a pass stopped between the trusted bundle and the apply loop. */
  lemma {:induction false} StopsBeforeApply(multiTenant: bool, request: Request, obs: Observations)
    requires ReachesCertificates(multiTenant, request, obs) && CertificatesReady(obs, TopologyIn(obs))
    requires !ReachesApply(multiTenant, request, obs)
    ensures var r := Resume(multiTenant, obs, AtLookup(request));
      r.fx.applied == [] && r.fx.updates == FrontUpdates(multiTenant, request, obs) && !WritesReady(r)
  {
    var instance := GetCCS(obs, multiTenant, request.namespace).value;
    var license := obs.license.value;
    var t := TopologyIn(obs);
    if !BundleReady(multiTenant, obs) {
      ToBundle(multiTenant, request, obs);
      BundleStop(multiTenant, obs, instance, license, t);
    } else if !AuthenticationReady(obs) {
      ToBundle(multiTenant, request, obs);
      BundlePass(multiTenant, obs, instance, license, t);
      AuthenticationStop(multiTenant, obs, instance, license, t, BundleFor(multiTenant, t, obs));
    } else {
      ToRender(multiTenant, request, obs);
      RenderStop(multiTenant, obs, instance, license, t, BundleFor(multiTenant, t, obs));
    }
  }
}
