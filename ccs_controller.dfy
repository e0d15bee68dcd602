/** The reconcile decision procedure of the ComplianceConfigurationSecurity
    (CCS) controller.

    Every read against the cluster and every call into the certificate
    manager, the renderer or the component handler is an input: the field of
    Observations that gives its outcome. The stage functions and Resume
    state, stage by stage, what one pass does with those inputs: which reads
    it makes, which status calls, which components it applies, which status
    writes it issues, and what it returns. The class ReconcileCCS performs
    the pass and is proved to do exactly that. */
module CcsController {
  import opened Operator
  import opened Status

  datatype License = License(complianceActive: bool)

  /** The certificates the controller reads through the certificate manager. */
  datatype SecretName = ManagerInternalTLS | TigeraLinseedSecret | VoltronLinseedPublicCert

  /** The cluster's role: ManagementCluster present, ManagementClusterConnection present, or neither. */
  datatype Topology = Standalone | Management | Managed

  /** The outcomes of the external calls made by one pass. For the
      ManagementCluster, ManagementClusterConnection and certificate reads,
      NotFound stands for the nil object those getters return. */
  datatype Observations = Observations(
    tenant: Fetch<()>,                       // utils.GetTenant
    crs: map<ObjectKey, string>,             // the CCS resources in the cluster, by key, with their Status.State
    crReadFails: bool,                       // the CCS Get fails with an error other than NotFound
    tigeraStatus: Fetch<()>,                 // the controller's TigeraStatus
    conditionsUpdateFails: bool,             // Status().Update in the TigeraStatus block
    apiServerReady: bool,                    // utils.IsAPIServerReady
    tierWatchReady: bool,                    // the tier watch ReadyFlag
    tier: Fetch<()>,                         // the allow-tigera Tier
    licenseApiReady: bool,                   // the license API ReadyFlag
    license: Fetch<License>,                 // utils.FetchLicenseKey
    installation: Fetch<()>,                 // utils.GetInstallation
    pullSecretsFail: bool,
    managementCluster: Fetch<()>,
    managementClusterConnection: Fetch<()>,
    certificateManagerFails: bool,           // certificatemanager.Create
    managerInternalTls: Fetch<()>,
    tigeraLinseedCert: Fetch<()>,
    voltronLinseedCert: Fetch<()>,
    tenantBundleFails: bool,                 // LoadMultiTenantTrustedBundleWithRootCertificates
    keyPairFails: bool,                      // GetOrCreateKeyPair for the CCS API
    authentication: Fetch<string>,           // the Authentication CR, by its Status.State
    tenantNamespacesFail: bool,
    keyValidatorFails: bool,
    imageSetFails: bool,
    applyFails: set<Component>,              // components whose CreateOrUpdateOrDelete fails
    available: bool,                         // status.IsAvailable
    statusUpdateFails: bool)                 // the final Status().Update

  /** The external operations a pass performs, in the order it performs them. */
  datatype Lookup =
    | GetTenant
    | GetCR(key: ObjectKey)
    | GetTigeraStatus
    | CheckAPIServer
    | GetTier
    | FetchLicense
    | GetInstallation
    | GetPullSecrets
    | GetManagementCluster
    | GetManagementClusterConnection
    | CreateCertificateManager
    | GetCertificate(secret: SecretName)
    | LoadTenantBundle
    | GetOrCreateKeyPair
    | GetAuthentication
    | GetTenantNamespaces
    | GetKeyValidatorConfig
    | ApplyImageSet

  /** Where the trusted bundle handed to the renderer comes from: built from
      the manager's internal certificate (when one was read) and the Linseed
      certificate, or, for multi-tenant clusters, the tenant's own bundle. */
  datatype TrustedBundle = BuiltBundle(withManagerTls: bool, linseed: SecretName) | TenantBundle

  /** The configuration snapshot (ccsrender.Config) as far as this model sees it. */
  datatype Config = Config(bundle: TrustedBundle, topology: Topology, hasNoLicense: bool, instance: Ccs)

  /** What a pass does besides returning: external operations, status calls,
      snapshots handed to the renderer, components applied, and CR status
      updates issued. */
  datatype Effects = Effects(
    lookups: seq<Lookup>,
    calls: seq<StatusCall>,
    rendered: seq<Config>,
    applied: seq<Component>,
    updates: seq<Ccs>)
  {
    function Then(next: Effects): Effects
    {
      Effects(lookups + next.lookups, calls + next.calls, rendered + next.rendered,
              applied + next.applied, updates + next.updates)
    }
  }

  const NoEffects: Effects := Effects([], [], [], [], [])

  /** reconcile.Result with its error: an empty Result and nil, a Result
      with RequeueAfter set to the standard retry and nil, or a non-nil error. */
  datatype Outcome = Done | RequeueAfterStandardRetry | Error(at: Gate)

  /** One pass: what it did, the check it stopped at (None when it went all
      the way to the Ready write), and what it returned. */
  datatype Run = Run(fx: Effects, gate: Option<Gate>, outcome: Outcome)

  function Reads(ls: seq<Lookup>): Effects
  {
    NoEffects.(lookups := ls)
  }

  function Stop(ls: seq<Lookup>, gate: Gate, outcome: Outcome): Run
  {
    Run(Reads(ls), Some(gate), outcome)
  }

  function Degrade(ls: seq<Lookup>, reason: Reason, gate: Gate, outcome: Outcome): Run
  {
    Run(Reads(ls).(calls := [DegradedSet(reason, gate)]), Some(gate), outcome)
  }

  function After(fx: Effects, r: Run): Run
  {
    r.(fx := fx.Then(r.fx))
  }

  /** The key GetCCS reads: always "tigera-secure", namespaced only in a multi-tenant cluster. */
  function CcsKey(multiTenant: bool, namespace: string): ObjectKey
  {
    ObjectKey(if multiTenant then namespace else "", CcsName)
  }

  /** GetCCS: the Get of the CCS resource under CcsKey. */
  function GetCCS(obs: Observations, multiTenant: bool, namespace: string): (r: Fetch<Ccs>)
    ensures r.Ok? <==> !obs.crReadFails && CcsKey(multiTenant, namespace) in obs.crs
    ensures r.Ok? ==> r.value.key == CcsKey(multiTenant, namespace)
                      && r.value.state == obs.crs[r.value.key]
    ensures r.NotFound? <==> !obs.crReadFails && CcsKey(multiTenant, namespace) !in obs.crs
  {
    var key := CcsKey(multiTenant, namespace);
    if obs.crReadFails then Err
    else if key in obs.crs then Ok(Ccs(key, obs.crs[key]))
    else NotFound
  }

  function TopologyOf(managementCluster: bool, connection: bool): (t: Topology)
    requires !(managementCluster && connection)
    ensures t == Management <==> managementCluster
    ensures t == Managed <==> connection
  {
    if managementCluster then Management else if connection then Managed else Standalone
  }

  /** Where the Linseed certificate is read from: the Voltron copy on a managed cluster, Linseed's own otherwise. */
  function LinseedCertLocation(t: Topology): SecretName
  {
    if t == Managed then VoltronLinseedPublicCert else TigeraLinseedSecret
  }

  function CertificateAt(obs: Observations, s: SecretName): Fetch<()>
  {
    match s
    case ManagerInternalTLS => obs.managerInternalTls
    case TigeraLinseedSecret => obs.tigeraLinseedCert
    case VoltronLinseedPublicCert => obs.voltronLinseedCert
  }

  function BundleFor(multiTenant: bool, t: Topology, obs: Observations): TrustedBundle
  {
    if multiTenant then TenantBundle
    else BuiltBundle(t == Management && obs.managerInternalTls.Ok?, LinseedCertLocation(t))
  }

  /** What the apply loop did: the components it attempted, in order, and the one that failed. */
  datatype Applied = Applied(attempted: seq<Component>, failed: Option<Component>)

  /** Apply cs in order, stopping after the first component that fails. */
  function ApplyUntilFailure(cs: seq<Component>, fails: set<Component>): (r: Applied)
    ensures |r.attempted| <= |cs| && r.attempted == cs[..|r.attempted|]
    ensures r.failed.None? <==> forall i :: 0 <= i < |cs| ==> cs[i] !in fails
    ensures r.failed.None? ==> r.attempted == cs
    ensures r.failed.Some? ==> |r.attempted| > 0 && r.attempted[|r.attempted| - 1] == r.failed.value
                               && r.failed.value in fails
    ensures forall i :: 0 <= i < |r.attempted| - 1 ==> r.attempted[i] !in fails
    decreases |cs|
  {
    if cs == [] then Applied([], None)
    else if cs[0] in fails then Applied([cs[0]], Some(cs[0]))
    else
      var rest := ApplyUntilFailure(cs[1..], fails);
      Applied([cs[0]] + rest.attempted, rest.failed)
  }

  /** How one stage of a pass ends: it stops the pass with a run, or it
      hands a value to the next stage after performing fx. */
  datatype StageResult<+T> = Halt(run: Run) | Pass(fx: Effects, value: T)
  {
    function Performed(): Effects
    {
      match this
      case Halt(r) => r.fx
      case Pass(fx, _) => fx
    }

    function Verdict(): Next<T>
    {
      match this
      case Halt(r) => Stopped(r.outcome)
      case Pass(_, v) => Proceed(v)
    }
  }

  /** What a stage method returns: the result of Reconcile, or the value the next stage needs. */
  datatype Next<+T> = Stopped(outcome: Outcome) | Proceed(value: T)

  /** Lines 206-239: the multi-tenant skip, the Tenant lookup and the CCS lookup. */
  function LookupStage(multiTenant: bool, request: Request, obs: Observations): StageResult<Ccs>
  {
    if multiTenant && request.namespace == "" then Halt(Stop([], NoNamespace, Done))
    else if obs.tenant.NotFound? then Halt(Stop([GetTenant], TenantMissing, Done))
    else if obs.tenant.Err? then Halt(Degrade([GetTenant], ResourceReadError, TenantQuery, Error(TenantQuery)))
    else
      var ls := [GetTenant, GetCR(CcsKey(multiTenant, request.namespace))];
      match GetCCS(obs, multiTenant, request.namespace)
      case NotFound => Halt(Run(Effects(ls, [CRNotFound], [], [], []), Some(CcsMissing), Done))
      case Err => Halt(Degrade(ls, ResourceReadError, CcsQuery, Error(CcsQuery)))
      case Ok(instance) => Pass(Effects(ls, [CRFound], [], [], []), instance)
  }

  /** The request names the controller's own TigeraStatus. */
  predicate NamesTigeraStatus(request: Request)
  {
    request.name == ResourceName && request.namespace == ""
  }

  /** Lines 245-257: for the request named after the controller's TigeraStatus,
      read that TigeraStatus and write the CR's status back unchanged. */
  function TigeraStatusStage(request: Request, obs: Observations, instance: Ccs): StageResult<()>
  {
    if NamesTigeraStatus(request) then
      if !obs.tigeraStatus.Ok? then Halt(Stop([GetTigeraStatus], TigeraStatusQuery, Error(TigeraStatusQuery)))
      else
        var fx := Effects([GetTigeraStatus], [], [], [], [instance]);
        if obs.conditionsUpdateFails then Halt(Run(fx, Some(ConditionsUpdate), Error(ConditionsUpdate)))
        else Pass(fx, ())
    else Pass(NoEffects, ())
  }

  /** Lines 259-295: the API server, the tier watch, the tier, the license API and the license. */
  function GateStage(obs: Observations): StageResult<License>
  {
    if !obs.apiServerReady then
      Halt(Degrade([CheckAPIServer], ResourceNotReady, APIServerNotReady, Done))
    else if !obs.tierWatchReady then
      Halt(Degrade([CheckAPIServer], ResourceNotReady, TierWatchPending, RequeueAfterStandardRetry))
    else if obs.tier.NotFound? then
      Halt(Degrade([CheckAPIServer, GetTier], ResourceNotReady, TierMissing, RequeueAfterStandardRetry))
    else if obs.tier.Err? then
      Halt(Degrade([CheckAPIServer, GetTier], ResourceReadError, TierQuery, Error(TierQuery)))
    else if !obs.licenseApiReady then
      Halt(Degrade([CheckAPIServer, GetTier], ResourceNotReady, LicenseAPIPending, RequeueAfterStandardRetry))
    else
      var ls := [CheckAPIServer, GetTier, FetchLicense];
      match obs.license
      case NotFound => Halt(Degrade(ls, ResourceNotFound, LicenseMissing, RequeueAfterStandardRetry))
      case Err => Halt(Degrade(ls, ResourceReadError, LicenseQuery, RequeueAfterStandardRetry))
      case Ok(license) => Pass(Reads(ls), license)
  }

  /** Lines 297-330: the installation, the pull secrets and the cluster's role. */
  function InstallationStage(obs: Observations): StageResult<Topology>
  {
    if obs.installation.NotFound? then
      Halt(Degrade([GetInstallation], ResourceNotFound, InstallationMissing, Error(InstallationMissing)))
    else if obs.installation.Err? then
      Halt(Degrade([GetInstallation], ResourceReadError, InstallationQuery, Error(InstallationQuery)))
    else if obs.pullSecretsFail then
      Halt(Degrade([GetInstallation, GetPullSecrets], ResourceReadError, PullSecretsQuery, Error(PullSecretsQuery)))
    else if obs.managementCluster.Err? then
      Halt(Degrade([GetInstallation, GetPullSecrets, GetManagementCluster],
                   ResourceReadError, ManagementClusterQuery, Error(ManagementClusterQuery)))
    else
      var ls := [GetInstallation, GetPullSecrets, GetManagementCluster, GetManagementClusterConnection];
      if obs.managementClusterConnection.Err? then
        Halt(Degrade(ls, ResourceReadError, ConnectionQuery, Error(ConnectionQuery)))
      else if obs.managementCluster.Ok? && obs.managementClusterConnection.Ok? then
        Halt(Degrade(ls, ResourceValidationError, TopologyConflict, Error(TopologyConflict)))
      else Pass(Reads(ls), TopologyOf(obs.managementCluster.Ok?, obs.managementClusterConnection.Ok?))
  }

  /** Lines 332-362: the certificate manager and the certificates the bundle is built from. */
  function CertificateStage(obs: Observations, t: Topology): StageResult<()>
  {
    if obs.certificateManagerFails then
      Halt(Degrade([CreateCertificateManager], ResourceCreateError, CertificateAuthority, Error(CertificateAuthority)))
    else
      var ls := [CreateCertificateManager] + (if t == Management then [GetCertificate(ManagerInternalTLS)] else []);
      if t == Management && obs.managerInternalTls.Err? then
        Halt(Degrade(ls, ResourceValidationError, ManagerTLSQuery, Error(ManagerTLSQuery)))
      else
        var location := LinseedCertLocation(t);
        var ls1 := ls + [GetCertificate(location)];
        match CertificateAt(obs, location)
        case Err => Halt(Degrade(ls1, ResourceValidationError, LinseedCertificateQuery, Error(LinseedCertificateQuery)))
        case NotFound => Halt(Degrade(ls1, ResourceNotReady, LinseedCertificatePending, Done))
        case Ok(_) => Pass(Reads(ls1), ())
  }

  /** Lines 363-391: the trusted bundle and the API key pair. */
  function BundleStage(multiTenant: bool, obs: Observations, t: Topology): StageResult<TrustedBundle>
  {
    if multiTenant && obs.tenantBundleFails then
      Halt(Degrade([LoadTenantBundle], ResourceReadError, TenantBundleQuery, Error(TenantBundleQuery)))
    else
      var ls := (if multiTenant then [LoadTenantBundle] else []) + [GetOrCreateKeyPair];
      if obs.keyPairFails then Halt(Degrade(ls, ResourceValidationError, APIKeyPairQuery, Error(APIKeyPairQuery)))
      else Pass(Reads(ls), BundleFor(multiTenant, t, obs))
  }

  /** Lines 393-402: the Authentication gate; a missing Authentication passes. */
  function AuthenticationStage(obs: Observations): StageResult<()>
  {
    match obs.authentication
    case Err => Halt(Degrade([GetAuthentication], ResourceReadError, AuthenticationQuery, Error(AuthenticationQuery)))
    case Ok(state) =>
      if state != TigeraStatusReady then
        Halt(Degrade([GetAuthentication], ResourceNotReady, AuthenticationNotReady, Done))
      else Pass(Reads([GetAuthentication]), ())
    case NotFound => Pass(Reads([GetAuthentication]), ())
  }

  /** Lines 404-446: the tenant namespaces, the key validator, the configuration snapshot and the image set. */
  function RenderStage(obs: Observations, instance: Ccs, license: License, t: Topology, bundle: TrustedBundle)
    : StageResult<Config>
  {
    if obs.tenantNamespacesFail then
      Halt(Stop([GetTenantNamespaces], TenantNamespacesQuery, Error(TenantNamespacesQuery)))
    else if obs.keyValidatorFails then
      Halt(Degrade([GetTenantNamespaces, GetKeyValidatorConfig],
                   ResourceValidationError, KeyValidatorQuery, Error(KeyValidatorQuery)))
    else
      var config := Config(bundle, t, !license.complianceActive, instance);
      var ls := [GetTenantNamespaces, GetKeyValidatorConfig, ApplyImageSet];
      if obs.imageSetFails then
        Halt(Run(Effects(ls, [DegradedSet(ResourceUpdateError, ImageSetUpdate)], [config], [], []),
                 Some(ImageSetUpdate), Error(ImageSetUpdate)))
      else Pass(Effects(ls, [], [config], [], []), config)
  }

  /** Lines 457-462: the apply loop over the three components, in order. */
  function FinalStage(obs: Observations, config: Config): Run
  {
    Report(ApplyUntilFailure(Components, obs.applyFails), obs, config)
  }

  /** Lines 463-486: what follows the apply loop, given what it did. */
  function Report(a: Applied, obs: Observations, config: Config): Run
  {
    if a.failed.Some? then
      var g := ComponentApply(a.failed.value);
      Run(Effects([], [DegradedSet(ResourceUpdateError, g)], [], a.attempted, []), Some(g), Error(g))
    else if config.hasNoLicense then
      Run(Effects([], [DegradedSet(ResourceValidationError, FeatureNotLicensed)], [], a.attempted, []),
          Some(FeatureNotLicensed), Done)
    else if !obs.available then
      Run(Effects([], [DegradedCleared], [], a.attempted, []), Some(NotAvailable), RequeueAfterStandardRetry)
    else
      var fx := Effects([], [DegradedCleared], [], a.attempted, [config.instance.(state := TigeraStatusReady)]);
      if obs.statusUpdateFails then Run(fx, Some(StatusUpdate), Error(StatusUpdate))
      else Run(fx, None, Done)
  }

  /** Where a pass stands between two stages, with what the earlier stages
      handed on: the CR, the license, the cluster's role, the trusted bundle
      and the rendered configuration. */
  datatype Phase =
    | AtLookup(request: Request)
    | AtTigeraStatus(request: Request, instance: Ccs)
    | AtGates(instance: Ccs)
    | AtInstallation(instance: Ccs, license: License)
    | AtCertificates(instance: Ccs, license: License, topology: Topology)
    | AtBundle(instance: Ccs, license: License, topology: Topology)
    | AtAuthentication(instance: Ccs, license: License, topology: Topology, bundle: TrustedBundle)
    | AtRender(instance: Ccs, license: License, topology: Topology, bundle: TrustedBundle)
    | AtApply(config: Config)

  /** How many stages follow the one at p. */
  function Remaining(p: Phase): nat
  {
    match p
    case AtLookup(_) => 8
    case AtTigeraStatus(_, _) => 7
    case AtGates(_) => 6
    case AtInstallation(_, _) => 5
    case AtCertificates(_, _, _) => 4
    case AtBundle(_, _, _) => 3
    case AtAuthentication(_, _, _, _) => 2
    case AtRender(_, _, _, _) => 1
    case AtApply(_) => 0
  }

  /** The rest of the pass from phase p: the stage at p, then, when it
      passes, the rest from the phase it leads to. */
  function Resume(multiTenant: bool, obs: Observations, p: Phase): Run
    decreases Remaining(p)
  {
    match p
    case AtLookup(request) =>
      (match LookupStage(multiTenant, request, obs)
       case Halt(r) => r
       case Pass(fx, instance) => After(fx, Resume(multiTenant, obs, AtTigeraStatus(request, instance))))
    case AtTigeraStatus(request, instance) =>
      (match TigeraStatusStage(request, obs, instance)
       case Halt(r) => r
       case Pass(fx, _) => After(fx, Resume(multiTenant, obs, AtGates(instance))))
    case AtGates(instance) =>
      (match GateStage(obs)
       case Halt(r) => r
       case Pass(fx, license) => After(fx, Resume(multiTenant, obs, AtInstallation(instance, license))))
    case AtInstallation(instance, license) =>
      (match InstallationStage(obs)
       case Halt(r) => r
       case Pass(fx, t) => After(fx, Resume(multiTenant, obs, AtCertificates(instance, license, t))))
    case AtCertificates(instance, license, t) =>
      (match CertificateStage(obs, t)
       case Halt(r) => r
       case Pass(fx, _) => After(fx, Resume(multiTenant, obs, AtBundle(instance, license, t))))
    case AtBundle(instance, license, t) =>
      (match BundleStage(multiTenant, obs, t)
       case Halt(r) => r
       case Pass(fx, bundle) => After(fx, Resume(multiTenant, obs, AtAuthentication(instance, license, t, bundle))))
    case AtAuthentication(instance, license, t, bundle) =>
      (match AuthenticationStage(obs)
       case Halt(r) => r
       case Pass(fx, _) => After(fx, Resume(multiTenant, obs, AtRender(instance, license, t, bundle))))
    case AtRender(instance, license, t, bundle) =>
      (match RenderStage(obs, instance, license, t, bundle)
       case Halt(r) => r
       case Pass(fx, config) => After(fx, Resume(multiTenant, obs, AtApply(config))))
    case AtApply(config) => FinalStage(obs, config)
  }

  lemma {:induction false} ThenAssoc(a: Effects, b: Effects, c: Effects)
    ensures a.Then(b).Then(c) == a.Then(b.Then(c))
  {
    assert a.lookups + b.lookups + c.lookups == a.lookups + (b.lookups + c.lookups);
    assert a.calls + b.calls + c.calls == a.calls + (b.calls + c.calls);
    assert a.rendered + b.rendered + c.rendered == a.rendered + (b.rendered + c.rendered);
    assert a.applied + b.applied + c.applied == a.applied + (b.applied + c.applied);
    assert a.updates + b.updates + c.updates == a.updates + (b.updates + c.updates);
  }

  /** The components before i passed and cs[i] fails: the apply loop stops right after cs[i]. */
  lemma {:induction false} ApplyUntilFailureAt(cs: seq<Component>, fails: set<Component>, i: nat)
    requires i < |cs| && cs[i] in fails
    requires forall j :: 0 <= j < i ==> cs[j] !in fails
    ensures ApplyUntilFailure(cs, fails) == Applied(cs[..i + 1], Some(cs[i]))
    decreases i
  {
    if i > 0 {
      ApplyUntilFailureAt(cs[1..], fails, i - 1);
      assert [cs[0]] + cs[1..][..i] == cs[..i + 1];
    }
  }

  /** Lines 457-462 with the three components written out: the namespace,
      the certificate management and the CCS component are applied in this
      order, up to and including the first that fails. */
  lemma {:induction false} ComponentsApplied(fails: set<Component>)
    ensures ApplyUntilFailure(Components, fails)
         == if NamespaceComponent in fails then Applied([NamespaceComponent], Some(NamespaceComponent))
            else if CertificateManagementComponent in fails
            then Applied([NamespaceComponent, CertificateManagementComponent], Some(CertificateManagementComponent))
            else if CcsComponent in fails then Applied(Components, Some(CcsComponent))
            else Applied(Components, None)
  {
    if NamespaceComponent in fails {
      ApplyUntilFailureAt(Components, fails, 0);
    } else if CertificateManagementComponent in fails {
      ApplyUntilFailureAt(Components, fails, 1);
    } else if CcsComponent in fails {
      ApplyUntilFailureAt(Components, fails, 2);
    } else {
      var a := ApplyUntilFailure(Components, fails);
      assert forall i :: 0 <= i < |Components| ==> Components[i] !in fails;
      assert a.attempted == Components;
    }
  }

  /** ReconcileCCS: one reconcile pass over the cluster described by the
      observations, driving the status manager. The ghost fields record what
      the pass does that the status manager does not see. */
  class ReconcileCCS {
    const multiTenant: bool
    const status: StatusManager
    /** The external operations performed so far. */
    ghost var lookups: seq<Lookup>
    /** The snapshots handed to the renderer so far. */
    ghost var rendered: seq<Config>
    /** Every CreateOrUpdateOrDelete attempted so far, in order. */
    ghost var applied: seq<Component>
    /** Every CR status update issued so far, with the object written. */
    ghost var updates: seq<Ccs>

    ghost function Log(): Effects
      reads this, status
    {
      Effects(lookups, status.calls, rendered, applied, updates)
    }

    constructor (multiTenant: bool, status: StatusManager)
      ensures this.multiTenant == multiTenant && this.status == status
      ensures lookups == [] && rendered == [] && applied == [] && updates == []
    {
      this.multiTenant := multiTenant;
      this.status := status;
      lookups, rendered, applied, updates := [], [], [], [];
    }

    /** Reconcile (lines 205-486): the stages in turn, returning at the first that stops. */
    method Reconcile(request: Request, obs: Observations) returns (outcome: Outcome)
      requires status.Valid()
      modifies this, status
      ensures status.Valid()
      ensures Log() == old(Log()).Then(Resume(multiTenant, obs, AtLookup(request)).fx)
      ensures outcome == Resume(multiTenant, obs, AtLookup(request)).outcome
      ensures status.View() == Replay(old(status.View()), Resume(multiTenant, obs, AtLookup(request)).fx.calls)
    {
      ghost var start := Log();
      ReplayConcat(Initial, start.calls, Resume(multiTenant, obs, AtLookup(request)).fx.calls);
      var n1 := LookupCcs(request, obs);
      if n1.Stopped? { return n1.outcome; }
      var instance := n1.value;
      ghost var done := LookupStage(multiTenant, request, obs).Performed();

      var n2 := ReportConditions(request, obs, instance);
      ghost var s2 := TigeraStatusStage(request, obs, instance);
      ThenAssoc(start, done, s2.Performed());
      if n2.Stopped? { return n2.outcome; }

      outcome := ReconcileFound(obs, instance);
      ghost var rest := Resume(multiTenant, obs, AtGates(instance));
      ThenAssoc(start, done, s2.Performed().Then(rest.fx));
      ThenAssoc(start.Then(done), s2.Performed(), rest.fx);
    }

    /** Lines 259-486: the gates and the installation, then the deployment. */
    method ReconcileFound(obs: Observations, instance: Ccs) returns (outcome: Outcome)
      requires status.Valid()
      modifies this, status
      ensures status.Valid()
      ensures Log() == old(Log()).Then(Resume(multiTenant, obs, AtGates(instance)).fx)
      ensures outcome == Resume(multiTenant, obs, AtGates(instance)).outcome
    {
      ghost var start := Log();
      var n1 := CheckGates(obs);
      if n1.Stopped? { return n1.outcome; }
      var license := n1.value;
      ghost var done := GateStage(obs).Performed();

      var n2 := CheckInstallation(obs);
      ghost var s2 := InstallationStage(obs);
      ThenAssoc(start, done, s2.Performed());
      if n2.Stopped? { return n2.outcome; }
      var t := n2.value;

      outcome := Deploy(obs, instance, license, t);
      ghost var rest := Resume(multiTenant, obs, AtCertificates(instance, license, t));
      ThenAssoc(start, done, s2.Performed().Then(rest.fx));
      ThenAssoc(start.Then(done), s2.Performed(), rest.fx);
    }

    /** Lines 332-486: the certificates and the bundle, then the rest. */
    method Deploy(obs: Observations, instance: Ccs, license: License, t: Topology) returns (outcome: Outcome)
      requires status.Valid()
      modifies this, status
      ensures status.Valid()
      ensures Log() == old(Log()).Then(Resume(multiTenant, obs, AtCertificates(instance, license, t)).fx)
      ensures outcome == Resume(multiTenant, obs, AtCertificates(instance, license, t)).outcome
    {
      ghost var start := Log();
      var n1 := ResolveCertificates(obs, t);
      if n1.Stopped? { return n1.outcome; }
      ghost var done := CertificateStage(obs, t).Performed();

      var n2 := PrepareBundle(obs, t);
      ghost var s2 := BundleStage(multiTenant, obs, t);
      ThenAssoc(start, done, s2.Performed());
      if n2.Stopped? { return n2.outcome; }
      var bundle := n2.value;

      outcome := RenderAndApply(obs, instance, license, t, bundle);
      ghost var rest := Resume(multiTenant, obs, AtAuthentication(instance, license, t, bundle));
      ThenAssoc(start, done, s2.Performed().Then(rest.fx));
      ThenAssoc(start.Then(done), s2.Performed(), rest.fx);
    }

    /** Lines 393-486: the Authentication gate, the render stage and the apply loop. */
    method RenderAndApply(obs: Observations, instance: Ccs, license: License, t: Topology, bundle: TrustedBundle)
      returns (outcome: Outcome)
      requires status.Valid()
      modifies this, status
      ensures status.Valid()
      ensures Log() == old(Log()).Then(Resume(multiTenant, obs, AtAuthentication(instance, license, t, bundle)).fx)
      ensures outcome == Resume(multiTenant, obs, AtAuthentication(instance, license, t, bundle)).outcome
    {
      ghost var start := Log();
      var n1 := CheckAuthentication(obs);
      if n1.Stopped? { return n1.outcome; }
      ghost var done := AuthenticationStage(obs).Performed();

      var n2 := RenderComponents(obs, instance, license, t, bundle);
      ghost var s2 := RenderStage(obs, instance, license, t, bundle);
      ThenAssoc(start, done, s2.Performed());
      if n2.Stopped? { return n2.outcome; }
      var config := n2.value;

      outcome := ApplyAndReport(obs, config);
      ghost var rest := Resume(multiTenant, obs, AtApply(config));
      ThenAssoc(start, done, s2.Performed().Then(rest.fx));
      ThenAssoc(start.Then(done), s2.Performed(), rest.fx);
    }

    /** Lines 206-239. */
    method LookupCcs(request: Request, obs: Observations) returns (next: Next<Ccs>)
      requires status.Valid()
      modifies this, status
      ensures status.Valid()
      ensures Log() == old(Log()).Then(LookupStage(multiTenant, request, obs).Performed())
      ensures next == LookupStage(multiTenant, request, obs).Verdict()
    {
      if multiTenant && request.namespace == "" {
        return Stopped(Done);
      }
      lookups := lookups + [GetTenant];
      if obs.tenant.NotFound? {
        return Stopped(Done);
      } else if obs.tenant.Err? {
        status.SetDegraded(ResourceReadError, TenantQuery);
        return Stopped(Error(TenantQuery));
      }
      lookups := lookups + [GetCR(CcsKey(multiTenant, request.namespace))];
      var instance := GetCCS(obs, multiTenant, request.namespace);
      if instance.NotFound? {
        status.OnCRNotFound();
        return Stopped(Done);
      } else if instance.Err? {
        status.SetDegraded(ResourceReadError, CcsQuery);
        return Stopped(Error(CcsQuery));
      }
      status.OnCRFound();
      return Proceed(instance.value);
    }

    /** Lines 245-257. */
    method ReportConditions(request: Request, obs: Observations, instance: Ccs) returns (next: Next<()>)
      requires status.Valid()
      modifies this, status
      ensures status.Valid()
      ensures Log() == old(Log()).Then(TigeraStatusStage(request, obs, instance).Performed())
      ensures next == TigeraStatusStage(request, obs, instance).Verdict()
    {
      if NamesTigeraStatus(request) {
        lookups := lookups + [GetTigeraStatus];
        if !obs.tigeraStatus.Ok? {
          return Stopped(Error(TigeraStatusQuery));
        }
        updates := updates + [instance];
        if obs.conditionsUpdateFails {
          return Stopped(Error(ConditionsUpdate));
        }
      }
      return Proceed(());
    }

    /** Lines 259-295. */
    method CheckGates(obs: Observations) returns (next: Next<License>)
      requires status.Valid()
      modifies this, status
      ensures status.Valid()
      ensures Log() == old(Log()).Then(GateStage(obs).Performed())
      ensures next == GateStage(obs).Verdict()
    {
      lookups := lookups + [CheckAPIServer];
      if !obs.apiServerReady {
        status.SetDegraded(ResourceNotReady, APIServerNotReady);
        return Stopped(Done);
      }
      if !obs.tierWatchReady {
        status.SetDegraded(ResourceNotReady, TierWatchPending);
        return Stopped(RequeueAfterStandardRetry);
      }
      lookups := lookups + [GetTier];
      if obs.tier.NotFound? {
        status.SetDegraded(ResourceNotReady, TierMissing);
        return Stopped(RequeueAfterStandardRetry);
      } else if obs.tier.Err? {
        status.SetDegraded(ResourceReadError, TierQuery);
        return Stopped(Error(TierQuery));
      }
      if !obs.licenseApiReady {
        status.SetDegraded(ResourceNotReady, LicenseAPIPending);
        return Stopped(RequeueAfterStandardRetry);
      }
      lookups := lookups + [FetchLicense];
      if obs.license.NotFound? {
        status.SetDegraded(ResourceNotFound, LicenseMissing);
        return Stopped(RequeueAfterStandardRetry);
      } else if obs.license.Err? {
        status.SetDegraded(ResourceReadError, LicenseQuery);
        return Stopped(RequeueAfterStandardRetry);
      }
      return Proceed(obs.license.value);
    }

    /** Lines 297-330. */
    method CheckInstallation(obs: Observations) returns (next: Next<Topology>)
      requires status.Valid()
      modifies this, status
      ensures status.Valid()
      ensures Log() == old(Log()).Then(InstallationStage(obs).Performed())
      ensures next == InstallationStage(obs).Verdict()
    {
      lookups := lookups + [GetInstallation];
      if obs.installation.NotFound? {
        status.SetDegraded(ResourceNotFound, InstallationMissing);
        return Stopped(Error(InstallationMissing));
      } else if obs.installation.Err? {
        status.SetDegraded(ResourceReadError, InstallationQuery);
        return Stopped(Error(InstallationQuery));
      }
      lookups := lookups + [GetPullSecrets];
      if obs.pullSecretsFail {
        status.SetDegraded(ResourceReadError, PullSecretsQuery);
        return Stopped(Error(PullSecretsQuery));
      }
      lookups := lookups + [GetManagementCluster];
      if obs.managementCluster.Err? {
        status.SetDegraded(ResourceReadError, ManagementClusterQuery);
        return Stopped(Error(ManagementClusterQuery));
      }
      lookups := lookups + [GetManagementClusterConnection];
      if obs.managementClusterConnection.Err? {
        status.SetDegraded(ResourceReadError, ConnectionQuery);
        return Stopped(Error(ConnectionQuery));
      }
      var managementCluster := obs.managementCluster.Ok?;
      var connection := obs.managementClusterConnection.Ok?;
      if managementCluster && connection {
        status.SetDegraded(ResourceValidationError, TopologyConflict);
        return Stopped(Error(TopologyConflict));
      }
      return Proceed(TopologyOf(managementCluster, connection));
    }

    /** Lines 332-362. */
    method ResolveCertificates(obs: Observations, t: Topology) returns (next: Next<()>)
      requires status.Valid()
      modifies this, status
      ensures status.Valid()
      ensures Log() == old(Log()).Then(CertificateStage(obs, t).Performed())
      ensures next == CertificateStage(obs, t).Verdict()
    {
      lookups := lookups + [CreateCertificateManager];
      if obs.certificateManagerFails {
        status.SetDegraded(ResourceCreateError, CertificateAuthority);
        return Stopped(Error(CertificateAuthority));
      }
      if t == Management {
        lookups := lookups + [GetCertificate(ManagerInternalTLS)];
        if obs.managerInternalTls.Err? {
          status.SetDegraded(ResourceValidationError, ManagerTLSQuery);
          return Stopped(Error(ManagerTLSQuery));
        }
      }
      var location := LinseedCertLocation(t);
      lookups := lookups + [GetCertificate(location)];
      var linseed := CertificateAt(obs, location);
      if linseed.Err? {
        status.SetDegraded(ResourceValidationError, LinseedCertificateQuery);
        return Stopped(Error(LinseedCertificateQuery));
      } else if linseed.NotFound? {
        status.SetDegraded(ResourceNotReady, LinseedCertificatePending);
        return Stopped(Done);
      }
      return Proceed(());
    }

    /** Lines 363-391. */
    method PrepareBundle(obs: Observations, t: Topology) returns (next: Next<TrustedBundle>)
      requires status.Valid()
      modifies this, status
      ensures status.Valid()
      ensures Log() == old(Log()).Then(BundleStage(multiTenant, obs, t).Performed())
      ensures next == BundleStage(multiTenant, obs, t).Verdict()
    {
      if multiTenant {
        lookups := lookups + [LoadTenantBundle];
        if obs.tenantBundleFails {
          status.SetDegraded(ResourceReadError, TenantBundleQuery);
          return Stopped(Error(TenantBundleQuery));
        }
      }
      lookups := lookups + [GetOrCreateKeyPair];
      if obs.keyPairFails {
        status.SetDegraded(ResourceValidationError, APIKeyPairQuery);
        return Stopped(Error(APIKeyPairQuery));
      }
      return Proceed(BundleFor(multiTenant, t, obs));
    }

    /** Lines 393-402. */
    method CheckAuthentication(obs: Observations) returns (next: Next<()>)
      requires status.Valid()
      modifies this, status
      ensures status.Valid()
      ensures Log() == old(Log()).Then(AuthenticationStage(obs).Performed())
      ensures next == AuthenticationStage(obs).Verdict()
    {
      lookups := lookups + [GetAuthentication];
      if obs.authentication.Err? {
        status.SetDegraded(ResourceReadError, AuthenticationQuery);
        return Stopped(Error(AuthenticationQuery));
      }
      if obs.authentication.Ok? && obs.authentication.value != TigeraStatusReady {
        status.SetDegraded(ResourceNotReady, AuthenticationNotReady);
        return Stopped(Done);
      }
      return Proceed(());
    }

    /** Lines 404-446. */
    method RenderComponents(obs: Observations, instance: Ccs, license: License, t: Topology, bundle: TrustedBundle)
      returns (next: Next<Config>)
      requires status.Valid()
      modifies this, status
      ensures status.Valid()
      ensures Log() == old(Log()).Then(RenderStage(obs, instance, license, t, bundle).Performed())
      ensures next == RenderStage(obs, instance, license, t, bundle).Verdict()
    {
      lookups := lookups + [GetTenantNamespaces];
      if obs.tenantNamespacesFail {
        return Stopped(Error(TenantNamespacesQuery));
      }
      lookups := lookups + [GetKeyValidatorConfig];
      if obs.keyValidatorFails {
        status.SetDegraded(ResourceValidationError, KeyValidatorQuery);
        return Stopped(Error(KeyValidatorQuery));
      }
      var config := Config(bundle, t, !license.complianceActive, instance);
      rendered := rendered + [config];
      lookups := lookups + [ApplyImageSet];
      if obs.imageSetFails {
        status.SetDegraded(ResourceUpdateError, ImageSetUpdate);
        return Stopped(Error(ImageSetUpdate));
      }
      return Proceed(config);
    }

    /** Lines 457-462: CreateOrUpdateOrDelete on each component in order,
        stopping at the first that fails. */
    method ApplyComponents(fails: set<Component>) returns (a: Applied)
      modifies this
      ensures a == ApplyUntilFailure(Components, fails)
      ensures applied == old(applied) + a.attempted
      ensures lookups == old(lookups) && rendered == old(rendered) && updates == old(updates)
    {
      var i := 0;
      while i < |Components|
        invariant 0 <= i <= |Components|
        invariant forall j :: 0 <= j < i ==> Components[j] !in fails
        invariant applied == old(applied) + Components[..i]
        invariant lookups == old(lookups) && rendered == old(rendered) && updates == old(updates)
      {
        var c := Components[i];
        applied := applied + [c];
        if c in fails {
          ApplyUntilFailureAt(Components, fails, i);
          assert Components[..i] + [c] == Components[..i + 1];
          return Applied(Components[..i + 1], Some(c));
        }
        assert Components[..i] + [c] == Components[..i + 1];
        i := i + 1;
      }
      assert Components[..i] == Components;
      return Applied(Components, None);
    }

    /** Lines 457-486. */
    method ApplyAndReport(obs: Observations, config: Config) returns (outcome: Outcome)
      requires status.Valid()
      modifies this, status
      ensures status.Valid()
      ensures Log() == old(Log()).Then(FinalStage(obs, config).fx)
      ensures outcome == FinalStage(obs, config).outcome
    {
      var a := ApplyComponents(obs.applyFails);
      if a.failed.Some? {
        status.SetDegraded(ResourceUpdateError, ComponentApply(a.failed.value));
        return Error(ComponentApply(a.failed.value));
      }
      if config.hasNoLicense {
        status.SetDegraded(ResourceValidationError, FeatureNotLicensed);
        return Done;
      }
      status.ClearDegraded();
      if !obs.available {
        return RequeueAfterStandardRetry;
      }
      var ready := config.instance.(state := TigeraStatusReady);
      updates := updates + [ready];
      if obs.statusUpdateFails {
        return Error(StatusUpdate);
      }
      return Done;
    }
  }
}
