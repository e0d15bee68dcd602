/** What one reconcile pass of the CCS controller promises, for every
    outcome of the reads it makes: the skip paths, the CR lookup, the order
    of the gates, where the certificates come from, the Authentication gate,
    the order of the applies and the final status transitions. */
module ReconcileGuarantees {
  import opened Operator
  import opened Status
  import opened CcsController
  import opened CcsProperties

  /** One whole pass for the request, as ReconcileCCS.Reconcile performs it. */
  function Reconciled(multiTenant: bool, request: Request, obs: Observations): Run
  {
    Resume(multiTenant, obs, AtLookup(request))
  }

  /** Lines 211-224: the multi-tenant request without a namespace is skipped
      untouched; a missing Tenant ends the pass quietly; a Tenant read error
      degrades it. */
  lemma {:induction false} SkipPaths(multiTenant: bool, request: Request, obs: Observations)
    ensures var r := Reconciled(multiTenant, request, obs);
      && (multiTenant && request.namespace == "" ==> r == Run(NoEffects, Some(NoNamespace), Done))
      && (!(multiTenant && request.namespace == "") && obs.tenant.NotFound?
          ==> r == Run(Reads([GetTenant]), Some(TenantMissing), Done))
      && (!(multiTenant && request.namespace == "") && obs.tenant.Err?
          ==> r.outcome == Error(TenantQuery) && r.fx.lookups == [GetTenant]
              && r.fx.calls == [DegradedSet(ResourceReadError, TenantQuery)])
  {
  }

  /** Lines 187-198 and 226-239: the CR is read under "tigera-secure", in the
      request's namespace only when multi-tenant; a missing CR is reported to
      the status manager and ends the pass; a read error degrades it; a found
      CR is reported first. */
  lemma {:induction false} CrLookup(multiTenant: bool, request: Request, obs: Observations)
    requires !(multiTenant && request.namespace == "") && obs.tenant.Ok?
    ensures var r := Reconciled(multiTenant, request, obs);
      var found := GetCCS(obs, multiTenant, request.namespace);
      && |r.fx.lookups| >= 2 && r.fx.lookups[..2] == [GetTenant, GetCR(ObjectKey(if multiTenant then request.namespace else "", CcsName))]
      && (found.NotFound? ==> r == Run(Reads(r.fx.lookups[..2]).(calls := [CRNotFound]), Some(CcsMissing), Done))
      && (found.Err? ==> r.outcome == Error(CcsQuery) && r.fx.calls == [DegradedSet(ResourceReadError, CcsQuery)])
      && (found.Ok? ==> r.fx.calls[0] == CRFound && found.value.state == obs.crs[found.value.key])
  {
    ResumeCalls(multiTenant, obs, AtLookup(request));
    if CcsFound(multiTenant, request, obs) {
      var instance := GetCCS(obs, multiTenant, request.namespace).value;
      if ConditionsReported(request, obs) {
        FrontPasses(multiTenant, request, obs, instance);
      } else {
        TigeraStatusStageFacts(request, obs, instance);
      }
    }
  }

  /** The pass stopped at g after finding the CR: it returns what g calls
      for and its status calls are OnCRFound, then those g calls for. */
  predicate StoppedAt(r: Run, g: Gate, outcome: Outcome, calls: seq<StatusCall>)
  {
    r.gate == Some(g) && r.outcome == outcome && r.fx.calls == [CRFound] + calls
  }

  /** ResumeOutcome and ResumeCalls for a whole pass that found the CR. */
  lemma {:induction false} FoundPassTabled(multiTenant: bool, request: Request, obs: Observations)
    requires CcsFound(multiTenant, request, obs)
    ensures var r := Reconciled(multiTenant, request, obs);
      && (r.gate.Some? ==> StoppedAt(r, r.gate.value, Disposition(r.gate.value), EndCalls(r.gate)))
      && (r.gate.None? ==> r.outcome == Done && r.fx.calls == [CRFound, DegradedCleared])
  {
    ResumeOutcome(multiTenant, obs, AtLookup(request));
    ResumeCalls(multiTenant, obs, AtLookup(request));
  }

  /** FoundPassTabled for a pass known to stop at g. */
  lemma {:induction false} StoppedAtGate(multiTenant: bool, request: Request, obs: Observations, g: Gate)
    requires CcsFound(multiTenant, request, obs) && Reconciled(multiTenant, request, obs).gate == Some(g)
    ensures StoppedAt(Reconciled(multiTenant, request, obs), g, Disposition(g), EndCalls(Some(g)))
  {
    FoundPassTabled(multiTenant, request, obs);
  }

  /** Lines 245-257: reading the controller's TigeraStatus or writing the CR
      status back can fail; either error ends the pass without touching Degraded. */
  lemma {:induction false} TigeraStatusBlock(multiTenant: bool, request: Request, obs: Observations)
    requires CcsFound(multiTenant, request, obs) && NamesTigeraStatus(request)
    ensures var r := Reconciled(multiTenant, request, obs);
      && (!obs.tigeraStatus.Ok? ==> StoppedAt(r, TigeraStatusQuery, Error(TigeraStatusQuery), [])
                                    && r.fx.updates == [])
      && (obs.tigeraStatus.Ok? ==> r.fx.updates[0] == GetCCS(obs, multiTenant, request.namespace).value)
      && (obs.tigeraStatus.Ok? && obs.conditionsUpdateFails
          ==> StoppedAt(r, ConditionsUpdate, Error(ConditionsUpdate), []) && |r.fx.updates| == 1)
  {
    FoundPassTabled(multiTenant, request, obs);
    if ConditionsReported(request, obs) {
      FrontPasses(multiTenant, request, obs, GetCCS(obs, multiTenant, request.namespace).value);
    }
  }

  /** Lines 259-295: the API server, the tier watch, the allow-tigera tier,
      the license API and the license, checked in this order; the first
      that is not there decides the result and the Degraded reason. */
  lemma {:induction false} BackgroundGates(multiTenant: bool, request: Request, obs: Observations)
    requires CcsFound(multiTenant, request, obs) && ConditionsReported(request, obs)
    ensures var r := Reconciled(multiTenant, request, obs);
      && (!obs.apiServerReady
          ==> StoppedAt(r, APIServerNotReady, Done, [DegradedSet(ResourceNotReady, APIServerNotReady)]))
      && (obs.apiServerReady && !obs.tierWatchReady
          ==> StoppedAt(r, TierWatchPending, RequeueAfterStandardRetry, [DegradedSet(ResourceNotReady, TierWatchPending)]))
      && (obs.apiServerReady && obs.tierWatchReady && obs.tier.NotFound?
          ==> StoppedAt(r, TierMissing, RequeueAfterStandardRetry, [DegradedSet(ResourceNotReady, TierMissing)]))
      && (obs.apiServerReady && obs.tierWatchReady && obs.tier.Err?
          ==> StoppedAt(r, TierQuery, Error(TierQuery), [DegradedSet(ResourceReadError, TierQuery)]))
      && (obs.apiServerReady && obs.tierWatchReady && obs.tier.Ok? && !obs.licenseApiReady
          ==> StoppedAt(r, LicenseAPIPending, RequeueAfterStandardRetry, [DegradedSet(ResourceNotReady, LicenseAPIPending)]))
      && (obs.apiServerReady && obs.tierWatchReady && obs.tier.Ok? && obs.licenseApiReady && obs.license.NotFound?
          ==> StoppedAt(r, LicenseMissing, RequeueAfterStandardRetry, [DegradedSet(ResourceNotFound, LicenseMissing)]))
      && (obs.apiServerReady && obs.tierWatchReady && obs.tier.Ok? && obs.licenseApiReady && obs.license.Err?
          ==> StoppedAt(r, LicenseQuery, RequeueAfterStandardRetry, [DegradedSet(ResourceReadError, LicenseQuery)]))
  {
    FoundPassTabled(multiTenant, request, obs);
    FrontPasses(multiTenant, request, obs, GetCCS(obs, multiTenant, request.namespace).value);
  }

  /** Lines 297-330: the installation, the pull secrets, the ManagementCluster
      and the ManagementClusterConnection, in this order; having both cluster
      objects is a validation error. */
  lemma {:induction false} InstallationGates(multiTenant: bool, request: Request, obs: Observations)
    requires CcsFound(multiTenant, request, obs) && ConditionsReported(request, obs) && BackgroundReady(obs)
    ensures var r := Reconciled(multiTenant, request, obs);
      && (obs.installation.NotFound?
          ==> StoppedAt(r, InstallationMissing, Error(InstallationMissing), [DegradedSet(ResourceNotFound, InstallationMissing)]))
      && (obs.installation.Err?
          ==> StoppedAt(r, InstallationQuery, Error(InstallationQuery), [DegradedSet(ResourceReadError, InstallationQuery)]))
      && (obs.installation.Ok? && obs.pullSecretsFail
          ==> StoppedAt(r, PullSecretsQuery, Error(PullSecretsQuery), [DegradedSet(ResourceReadError, PullSecretsQuery)]))
      && (obs.installation.Ok? && !obs.pullSecretsFail && obs.managementCluster.Err?
          ==> StoppedAt(r, ManagementClusterQuery, Error(ManagementClusterQuery),
                        [DegradedSet(ResourceReadError, ManagementClusterQuery)]))
      && (obs.installation.Ok? && !obs.pullSecretsFail && !obs.managementCluster.Err? && obs.managementClusterConnection.Err?
          ==> StoppedAt(r, ConnectionQuery, Error(ConnectionQuery), [DegradedSet(ResourceReadError, ConnectionQuery)]))
      && (obs.installation.Ok? && !obs.pullSecretsFail && obs.managementCluster.Ok? && obs.managementClusterConnection.Ok?
          ==> StoppedAt(r, TopologyConflict, Error(TopologyConflict), [DegradedSet(ResourceValidationError, TopologyConflict)]))
  {
    FoundPassTabled(multiTenant, request, obs);
    FrontPasses(multiTenant, request, obs, GetCCS(obs, multiTenant, request.namespace).value);
  }

  /** A pass that fails a check before the certificate manager makes only the front reads. */
  lemma {:induction false} ReadsStopBeforeCertificates(multiTenant: bool, request: Request, obs: Observations)
    requires !ReachesCertificates(multiTenant, request, obs)
    ensures forall l :: l in Reconciled(multiTenant, request, obs).fx.lookups ==> FrontLookup(l)
  {
    if !(CcsFound(multiTenant, request, obs) && ConditionsReported(request, obs)) {
      FrontStops(multiTenant, request, obs);
    } else {
      var instance := GetCCS(obs, multiTenant, request.namespace).value;
      FrontPasses(multiTenant, request, obs, instance);
      GatesStop(multiTenant, obs, instance);
    }
  }

  /** A pass that passes every check up to the cluster-role conflict makes
      the front reads, the certificate reads, then only later reads. */
  lemma {:induction false} ReadsInOrder(multiTenant: bool, request: Request, obs: Observations)
    requires ReachesCertificates(multiTenant, request, obs)
    ensures var r := Reconciled(multiTenant, request, obs);
      var front := FrontLookups(multiTenant, request);
      var certificates := CertificateLookups(obs, TopologyIn(obs));
      && |r.fx.lookups| >= |front| + |certificates|
      && r.fx.lookups == front + certificates + r.fx.lookups[|front| + |certificates|..]
      && forall l :: l in r.fx.lookups[|front| + |certificates|..] ==> LateLookup(l)
  {
    if !CertificatesReady(obs, TopologyIn(obs)) {
      ReadsStopAtCertificates(multiTenant, request, obs);
    } else {
      ReadsPastCertificates(multiTenant, request, obs);
    }
  }

  lemma {:induction false} ReadsStopAtCertificates(multiTenant: bool, request: Request, obs: Observations)
    requires ReachesCertificates(multiTenant, request, obs) && !CertificatesReady(obs, TopologyIn(obs))
    ensures Reconciled(multiTenant, request, obs).fx.lookups
         == FrontLookups(multiTenant, request) + CertificateLookups(obs, TopologyIn(obs))
  {
    ToCertificates(multiTenant, request, obs);
    CertificatesStop(multiTenant, obs, GetCCS(obs, multiTenant, request.namespace).value, obs.license.value, TopologyIn(obs));
  }

  lemma {:induction false} ReadsPastCertificates(multiTenant: bool, request: Request, obs: Observations)
    requires ReachesCertificates(multiTenant, request, obs) && CertificatesReady(obs, TopologyIn(obs))
    ensures var ls := Reconciled(multiTenant, request, obs).fx.lookups;
      var e := Resume(multiTenant, obs, AtBundle(GetCCS(obs, multiTenant, request.namespace).value,
                                                 obs.license.value, TopologyIn(obs)));
      && ls == FrontLookups(multiTenant, request) + CertificateLookups(obs, TopologyIn(obs)) + e.fx.lookups
      && forall l :: l in e.fx.lookups ==> LateLookup(l)
  {
    ToBundle(multiTenant, request, obs);
    LateReads(multiTenant, obs, GetCCS(obs, multiTenant, request.namespace).value, obs.license.value, TopologyIn(obs));
  }

  /** Lines 296-332: certificate work starts only once every earlier check,
      the cluster-role conflict last, has passed. */
  lemma {:induction false} ConflictPrecedesCertificates(multiTenant: bool, request: Request, obs: Observations)
    ensures var ls := Reconciled(multiTenant, request, obs).fx.lookups;
      && (CreateCertificateManager in ls <==> ReachesCertificates(multiTenant, request, obs))
      && (CreateCertificateManager in ls ==> !(obs.managementCluster.Ok? && obs.managementClusterConnection.Ok?))
  {
    if !ReachesCertificates(multiTenant, request, obs) {
      ReadsStopBeforeCertificates(multiTenant, request, obs);
    } else {
      ReadsInOrder(multiTenant, request, obs);
      CertificateStageFacts(obs, TopologyIn(obs));
    }
  }

  /** Lines 340-362: the manager's TLS certificate is read exactly when a
      ManagementCluster exists (and the certificate manager was created);
      the Linseed certificate is read from the Voltron copy exactly when a
      ManagementClusterConnection exists, and from Linseed's own secret
      otherwise. */
  lemma {:induction false} CertificateSource(multiTenant: bool, request: Request, obs: Observations)
    ensures var ls := Reconciled(multiTenant, request, obs).fx.lookups;
      && (GetCertificate(ManagerInternalTLS) in ls
          <==> ReachesCertificates(multiTenant, request, obs) && !obs.certificateManagerFails && obs.managementCluster.Ok?)
      && (GetCertificate(VoltronLinseedPublicCert) in ls ==> obs.managementClusterConnection.Ok?)
      && (GetCertificate(TigeraLinseedSecret) in ls ==> !obs.managementClusterConnection.Ok?)
      && (ReachesCertificates(multiTenant, request, obs) && !obs.certificateManagerFails
          && !(obs.managementCluster.Ok? && obs.managerInternalTls.Err?)
          ==> && (GetCertificate(VoltronLinseedPublicCert) in ls <==> obs.managementClusterConnection.Ok?)
              && (GetCertificate(TigeraLinseedSecret) in ls <==> !obs.managementClusterConnection.Ok?))
  {
    if !ReachesCertificates(multiTenant, request, obs) {
      ReadsStopBeforeCertificates(multiTenant, request, obs);
    } else {
      ReadsInOrder(multiTenant, request, obs);
      var ls := Reconciled(multiTenant, request, obs).fx.lookups;
      var front := FrontLookups(multiTenant, request);
      var t := TopologyIn(obs);
      FrontLookupsAreFront(multiTenant, request);
      CertificateReadsAmong(front, ls[|front| + |CertificateLookups(obs, t)|..], obs, t);
    }
  }

  // ------------------------------------------------------- from the certificate manager on

  /** Lines 332-362: which certificate check, if any, stops the pass. */
  lemma {:induction false} CertificateGateAt(multiTenant: bool, request: Request, obs: Observations)
    requires ReachesCertificates(multiTenant, request, obs)
    ensures var g := Reconciled(multiTenant, request, obs).gate;
      var linseed := CertificateAt(obs, LinseedCertLocation(TopologyIn(obs)));
      var tlsReadable := !(obs.managementCluster.Ok? && obs.managerInternalTls.Err?);
      && (obs.certificateManagerFails ==> g == Some(CertificateAuthority))
      && (!obs.certificateManagerFails && !tlsReadable ==> g == Some(ManagerTLSQuery))
      && (!obs.certificateManagerFails && tlsReadable && linseed.Err? ==> g == Some(LinseedCertificateQuery))
      && (!obs.certificateManagerFails && tlsReadable && linseed.NotFound? ==> g == Some(LinseedCertificatePending))
  {
    ToCertificates(multiTenant, request, obs);
    CertificatePhaseGates(multiTenant, obs, GetCCS(obs, multiTenant, request.namespace).value, obs.license.value, TopologyIn(obs));
  }

  lemma {:induction false} CertificateAuthorityStops(multiTenant: bool, request: Request, obs: Observations)
    requires ReachesCertificates(multiTenant, request, obs) && obs.certificateManagerFails
    ensures StoppedAt(Reconciled(multiTenant, request, obs), CertificateAuthority, Error(CertificateAuthority),
                      [DegradedSet(ResourceCreateError, CertificateAuthority)])
  {
    CertificateGateAt(multiTenant, request, obs);
    StoppedAtGate(multiTenant, request, obs, CertificateAuthority);
  }

  lemma {:induction false} ManagerTlsStops(multiTenant: bool, request: Request, obs: Observations)
    requires ReachesCertificates(multiTenant, request, obs) && !obs.certificateManagerFails
    requires obs.managementCluster.Ok? && obs.managerInternalTls.Err?
    ensures StoppedAt(Reconciled(multiTenant, request, obs), ManagerTLSQuery, Error(ManagerTLSQuery),
                      [DegradedSet(ResourceValidationError, ManagerTLSQuery)])
  {
    CertificateGateAt(multiTenant, request, obs);
    StoppedAtGate(multiTenant, request, obs, ManagerTLSQuery);
  }

  lemma {:induction false} LinseedQueryStops(multiTenant: bool, request: Request, obs: Observations)
    requires ReachesCertificates(multiTenant, request, obs) && !obs.certificateManagerFails
    requires !(obs.managementCluster.Ok? && obs.managerInternalTls.Err?)
    requires CertificateAt(obs, LinseedCertLocation(TopologyIn(obs))).Err?
    ensures StoppedAt(Reconciled(multiTenant, request, obs), LinseedCertificateQuery, Error(LinseedCertificateQuery),
                      [DegradedSet(ResourceValidationError, LinseedCertificateQuery)])
  {
    CertificateGateAt(multiTenant, request, obs);
    StoppedAtGate(multiTenant, request, obs, LinseedCertificateQuery);
  }

  /** Lines 332-357: the certificate manager, the manager's TLS certificate
      and the Linseed certificate, each a failure that degrades the pass. */
  lemma {:induction false} CertificateGates(multiTenant: bool, request: Request, obs: Observations)
    requires ReachesCertificates(multiTenant, request, obs)
    ensures var r := Reconciled(multiTenant, request, obs);
      var linseed := CertificateAt(obs, LinseedCertLocation(TopologyIn(obs)));
      var tlsReadable := !(obs.managementCluster.Ok? && obs.managerInternalTls.Err?);
      && (obs.certificateManagerFails
          ==> StoppedAt(r, CertificateAuthority, Error(CertificateAuthority),
                        [DegradedSet(ResourceCreateError, CertificateAuthority)]))
      && (!obs.certificateManagerFails && !tlsReadable
          ==> StoppedAt(r, ManagerTLSQuery, Error(ManagerTLSQuery), [DegradedSet(ResourceValidationError, ManagerTLSQuery)]))
      && (!obs.certificateManagerFails && tlsReadable && linseed.Err?
          ==> StoppedAt(r, LinseedCertificateQuery, Error(LinseedCertificateQuery),
                        [DegradedSet(ResourceValidationError, LinseedCertificateQuery)]))
  {
    if obs.certificateManagerFails {
      CertificateAuthorityStops(multiTenant, request, obs);
    } else if obs.managementCluster.Ok? && obs.managerInternalTls.Err? {
      ManagerTlsStops(multiTenant, request, obs);
    } else if CertificateAt(obs, LinseedCertLocation(TopologyIn(obs))).Err? {
      LinseedQueryStops(multiTenant, request, obs);
    }
  }

  /** Lines 358-362: a Linseed certificate that does not exist yet leaves the
      pass Degraded(ResourceNotReady) and returns with no error, nothing
      rendered and nothing applied. */
  lemma {:induction false} LinseedPending(multiTenant: bool, request: Request, obs: Observations)
    requires ReachesCertificates(multiTenant, request, obs)
    requires !obs.certificateManagerFails && !(obs.managementCluster.Ok? && obs.managerInternalTls.Err?)
    requires CertificateAt(obs, LinseedCertLocation(TopologyIn(obs))).NotFound?
    ensures var r := Reconciled(multiTenant, request, obs);
      && StoppedAt(r, LinseedCertificatePending, Done, [DegradedSet(ResourceNotReady, LinseedCertificatePending)])
      && r.fx.rendered == [] && r.fx.applied == []
  {
    CertificateGateAt(multiTenant, request, obs);
    StoppedAtGate(multiTenant, request, obs, LinseedCertificatePending);
    CertificatesNothingApplied(multiTenant, request, obs);
  }

  /** A pass stopped by a certificate check renders and applies nothing. */
  lemma {:induction false} CertificatesNothingApplied(multiTenant: bool, request: Request, obs: Observations)
    requires ReachesCertificates(multiTenant, request, obs) && !CertificatesReady(obs, TopologyIn(obs))
    ensures var r := Reconciled(multiTenant, request, obs);
      r.fx.rendered == [] && r.fx.applied == []
  {
    ToCertificates(multiTenant, request, obs);
    CertificatesStop(multiTenant, obs, GetCCS(obs, multiTenant, request.namespace).value, obs.license.value, TopologyIn(obs));
  }

  /** Lines 363-402: which bundle or Authentication check, if any, stops the pass. */
  lemma {:induction false} BundleGateAt(multiTenant: bool, request: Request, obs: Observations)
    requires ReachesCertificates(multiTenant, request, obs) && CertificatesReady(obs, TopologyIn(obs))
    ensures var g := Reconciled(multiTenant, request, obs).gate;
      && (multiTenant && obs.tenantBundleFails ==> g == Some(TenantBundleQuery))
      && (!(multiTenant && obs.tenantBundleFails) && obs.keyPairFails ==> g == Some(APIKeyPairQuery))
      && (BundleReady(multiTenant, obs) && obs.authentication.Err? ==> g == Some(AuthenticationQuery))
      && (BundleReady(multiTenant, obs) && obs.authentication.Ok? && obs.authentication.value != TigeraStatusReady
          ==> g == Some(AuthenticationNotReady))
  {
    ToBundle(multiTenant, request, obs);
    BundlePhaseGates(multiTenant, obs, GetCCS(obs, multiTenant, request.namespace).value, obs.license.value, TopologyIn(obs));
  }

  lemma {:induction false} TenantBundleStops(multiTenant: bool, request: Request, obs: Observations)
    requires ReachesCertificates(multiTenant, request, obs) && CertificatesReady(obs, TopologyIn(obs))
    requires multiTenant && obs.tenantBundleFails
    ensures StoppedAt(Reconciled(multiTenant, request, obs), TenantBundleQuery, Error(TenantBundleQuery),
                      [DegradedSet(ResourceReadError, TenantBundleQuery)])
  {
    BundleGateAt(multiTenant, request, obs);
    StoppedAtGate(multiTenant, request, obs, TenantBundleQuery);
  }

  lemma {:induction false} KeyPairStops(multiTenant: bool, request: Request, obs: Observations)
    requires ReachesCertificates(multiTenant, request, obs) && CertificatesReady(obs, TopologyIn(obs))
    requires !(multiTenant && obs.tenantBundleFails) && obs.keyPairFails
    ensures StoppedAt(Reconciled(multiTenant, request, obs), APIKeyPairQuery, Error(APIKeyPairQuery),
                      [DegradedSet(ResourceValidationError, APIKeyPairQuery)])
  {
    BundleGateAt(multiTenant, request, obs);
    StoppedAtGate(multiTenant, request, obs, APIKeyPairQuery);
  }

  /** Lines 363-391: the tenant's trusted bundle (multi-tenant only) and the API key pair. */
  lemma {:induction false} BundleGates(multiTenant: bool, request: Request, obs: Observations)
    requires ReachesCertificates(multiTenant, request, obs) && CertificatesReady(obs, TopologyIn(obs))
    ensures var r := Reconciled(multiTenant, request, obs);
      && (multiTenant && obs.tenantBundleFails
          ==> StoppedAt(r, TenantBundleQuery, Error(TenantBundleQuery), [DegradedSet(ResourceReadError, TenantBundleQuery)]))
      && (!(multiTenant && obs.tenantBundleFails) && obs.keyPairFails
          ==> StoppedAt(r, APIKeyPairQuery, Error(APIKeyPairQuery), [DegradedSet(ResourceValidationError, APIKeyPairQuery)]))
  {
    if multiTenant && obs.tenantBundleFails {
      TenantBundleStops(multiTenant, request, obs);
    } else if obs.keyPairFails {
      KeyPairStops(multiTenant, request, obs);
    }
  }

  lemma {:induction false} AuthenticationQueryStops(multiTenant: bool, request: Request, obs: Observations)
    requires ReachesCertificates(multiTenant, request, obs) && CertificatesReady(obs, TopologyIn(obs))
    requires BundleReady(multiTenant, obs) && obs.authentication.Err?
    ensures StoppedAt(Reconciled(multiTenant, request, obs), AuthenticationQuery, Error(AuthenticationQuery),
                      [DegradedSet(ResourceReadError, AuthenticationQuery)])
  {
    BundleGateAt(multiTenant, request, obs);
    StoppedAtGate(multiTenant, request, obs, AuthenticationQuery);
  }

  lemma {:induction false} AuthenticationNotReadyStops(multiTenant: bool, request: Request, obs: Observations)
    requires ReachesCertificates(multiTenant, request, obs) && CertificatesReady(obs, TopologyIn(obs))
    requires BundleReady(multiTenant, obs) && obs.authentication.Ok? && obs.authentication.value != TigeraStatusReady
    ensures StoppedAt(Reconciled(multiTenant, request, obs), AuthenticationNotReady, Done,
                      [DegradedSet(ResourceNotReady, AuthenticationNotReady)])
  {
    BundleGateAt(multiTenant, request, obs);
    StoppedAtGate(multiTenant, request, obs, AuthenticationNotReady);
  }

  /** A pass stopped by the Authentication check renders and applies nothing;
      one that passes it goes on to read the tenant namespaces. */
  lemma {:induction false} AuthenticationDecidesRendering(multiTenant: bool, request: Request, obs: Observations)
    requires ReachesCertificates(multiTenant, request, obs) && CertificatesReady(obs, TopologyIn(obs))
    requires BundleReady(multiTenant, obs)
    ensures var r := Reconciled(multiTenant, request, obs);
      && (!AuthenticationReady(obs) ==> r.fx.rendered == [] && r.fx.applied == [])
      && (AuthenticationReady(obs) ==> GetTenantNamespaces in r.fx.lookups)
  {
    var instance := GetCCS(obs, multiTenant, request.namespace).value;
    var t := TopologyIn(obs);
    if AuthenticationReady(obs) {
      ToRender(multiTenant, request, obs);
    } else {
      ToBundle(multiTenant, request, obs);
      BundlePass(multiTenant, obs, instance, obs.license.value, t);
      AuthenticationStop(multiTenant, obs, instance, obs.license.value, t, BundleFor(multiTenant, t, obs));
    }
  }

  /** Lines 393-402: an Authentication that cannot be read degrades the pass
      and returns the error; one that exists but is not Ready degrades it
      and returns with no error, before anything is rendered or applied; a
      missing one does not stop the pass. */
  lemma {:induction false} AuthenticationGate(multiTenant: bool, request: Request, obs: Observations)
    requires ReachesCertificates(multiTenant, request, obs) && CertificatesReady(obs, TopologyIn(obs))
    requires BundleReady(multiTenant, obs)
    ensures var r := Reconciled(multiTenant, request, obs);
      && (obs.authentication.Err?
          ==> StoppedAt(r, AuthenticationQuery, Error(AuthenticationQuery), [DegradedSet(ResourceReadError, AuthenticationQuery)]))
      && (obs.authentication.Ok? && obs.authentication.value != TigeraStatusReady
          ==> && StoppedAt(r, AuthenticationNotReady, Done, [DegradedSet(ResourceNotReady, AuthenticationNotReady)])
              && r.fx.rendered == [] && r.fx.applied == [])
      && (AuthenticationReady(obs) ==> GetTenantNamespaces in r.fx.lookups)
  {
    AuthenticationDecidesRendering(multiTenant, request, obs);
    if obs.authentication.Err? {
      AuthenticationQueryStops(multiTenant, request, obs);
    } else if obs.authentication.Ok? && obs.authentication.value != TigeraStatusReady {
      AuthenticationNotReadyStops(multiTenant, request, obs);
    }
  }

  /** Lines 404-446: which rendering check, if any, stops the pass. */
  lemma {:induction false} RenderGateAt(multiTenant: bool, request: Request, obs: Observations)
    requires ReachesCertificates(multiTenant, request, obs) && CertificatesReady(obs, TopologyIn(obs))
    requires BundleReady(multiTenant, obs) && AuthenticationReady(obs)
    ensures var r := Reconciled(multiTenant, request, obs);
      && (obs.tenantNamespacesFail ==> r.gate == Some(TenantNamespacesQuery))
      && (!obs.tenantNamespacesFail && obs.keyValidatorFails ==> r.gate == Some(KeyValidatorQuery))
      && (!obs.tenantNamespacesFail && !obs.keyValidatorFails && obs.imageSetFails
          ==> r.gate == Some(ImageSetUpdate) && r.fx.rendered == [ConfigIn(multiTenant, request, obs)] && r.fx.applied == [])
  {
    var config := ConfigIn(multiTenant, request, obs);
    ToRender(multiTenant, request, obs);
    RenderPhaseGates(multiTenant, obs, config.instance, obs.license.value, config.topology, config.bundle);
    if !RenderReady(obs) {
      RenderStop(multiTenant, obs, config.instance, obs.license.value, config.topology, config.bundle);
    }
  }

  lemma {:induction false} TenantNamespacesStops(multiTenant: bool, request: Request, obs: Observations)
    requires ReachesCertificates(multiTenant, request, obs) && CertificatesReady(obs, TopologyIn(obs))
    requires BundleReady(multiTenant, obs) && AuthenticationReady(obs) && obs.tenantNamespacesFail
    ensures StoppedAt(Reconciled(multiTenant, request, obs), TenantNamespacesQuery, Error(TenantNamespacesQuery), [])
  {
    RenderGateAt(multiTenant, request, obs);
    StoppedAtGate(multiTenant, request, obs, TenantNamespacesQuery);
  }

  lemma {:induction false} KeyValidatorStops(multiTenant: bool, request: Request, obs: Observations)
    requires ReachesCertificates(multiTenant, request, obs) && CertificatesReady(obs, TopologyIn(obs))
    requires BundleReady(multiTenant, obs) && AuthenticationReady(obs)
    requires !obs.tenantNamespacesFail && obs.keyValidatorFails
    ensures StoppedAt(Reconciled(multiTenant, request, obs), KeyValidatorQuery, Error(KeyValidatorQuery),
                      [DegradedSet(ResourceValidationError, KeyValidatorQuery)])
  {
    RenderGateAt(multiTenant, request, obs);
    StoppedAtGate(multiTenant, request, obs, KeyValidatorQuery);
  }

  lemma {:induction false} ImageSetStops(multiTenant: bool, request: Request, obs: Observations)
    requires ReachesCertificates(multiTenant, request, obs) && CertificatesReady(obs, TopologyIn(obs))
    requires BundleReady(multiTenant, obs) && AuthenticationReady(obs)
    requires !obs.tenantNamespacesFail && !obs.keyValidatorFails && obs.imageSetFails
    ensures StoppedAt(Reconciled(multiTenant, request, obs), ImageSetUpdate, Error(ImageSetUpdate),
                      [DegradedSet(ResourceUpdateError, ImageSetUpdate)])
  {
    RenderGateAt(multiTenant, request, obs);
    StoppedAtGate(multiTenant, request, obs, ImageSetUpdate);
  }

  /** Lines 404-446: the tenant namespaces (an error returned without
      touching Degraded), the key validator configuration, and the image
      set, applied to the rendered snapshot before any component. */
  lemma {:induction false} RenderGates(multiTenant: bool, request: Request, obs: Observations)
    requires ReachesCertificates(multiTenant, request, obs) && CertificatesReady(obs, TopologyIn(obs))
    requires BundleReady(multiTenant, obs) && AuthenticationReady(obs)
    ensures var r := Reconciled(multiTenant, request, obs);
      && (obs.tenantNamespacesFail ==> StoppedAt(r, TenantNamespacesQuery, Error(TenantNamespacesQuery), []))
      && (!obs.tenantNamespacesFail && obs.keyValidatorFails
          ==> StoppedAt(r, KeyValidatorQuery, Error(KeyValidatorQuery), [DegradedSet(ResourceValidationError, KeyValidatorQuery)]))
      && (!obs.tenantNamespacesFail && !obs.keyValidatorFails && obs.imageSetFails
          ==> && StoppedAt(r, ImageSetUpdate, Error(ImageSetUpdate), [DegradedSet(ResourceUpdateError, ImageSetUpdate)])
              && r.fx.rendered == [ConfigIn(multiTenant, request, obs)] && r.fx.applied == [])
  {
    RenderGateAt(multiTenant, request, obs);
    if obs.tenantNamespacesFail {
      TenantNamespacesStops(multiTenant, request, obs);
    } else if obs.keyValidatorFails {
      KeyValidatorStops(multiTenant, request, obs);
    } else if obs.imageSetFails {
      ImageSetStops(multiTenant, request, obs);
    }
  }

  // ------------------------------------------------------- the apply loop and after

  /** Lines 457-462: a pass applies nothing unless every earlier check
      passed; then it applies the namespace, the certificate management and
      the CCS component in this order, up to and including the first that fails. */
  lemma {:induction false} ApplyOrder(multiTenant: bool, request: Request, obs: Observations)
    ensures var applied := Reconciled(multiTenant, request, obs).fx.applied;
      var fails := obs.applyFails;
      applied == if !ReachesApply(multiTenant, request, obs) then []
                 else if NamespaceComponent in fails then [NamespaceComponent]
                 else if CertificateManagementComponent in fails then [NamespaceComponent, CertificateManagementComponent]
                 else Components
  {
    ComponentsApplied(obs.applyFails);
    if ReachesApply(multiTenant, request, obs) {
      ToApply(multiTenant, request, obs);
      ReportFacts(ApplyUntilFailure(Components, obs.applyFails), obs, ConfigIn(multiTenant, request, obs));
    } else if !ReachesCertificates(multiTenant, request, obs) || !CertificatesReady(obs, TopologyIn(obs)) {
      StopsBeforeBundle(multiTenant, request, obs);
    } else {
      StopsBeforeApply(multiTenant, request, obs);
    }
  }

  /** The run of the apply loop and the final transitions, for a pass that gets there. */
  lemma {:induction false} FinalRun(multiTenant: bool, request: Request, obs: Observations)
    requires ReachesApply(multiTenant, request, obs)
    ensures var r := Reconciled(multiTenant, request, obs);
      var a := ApplyUntilFailure(Components, obs.applyFails);
      var config := ConfigIn(multiTenant, request, obs);
      && r.fx.applied == a.attempted
      && (a.failed.Some? ==> r.gate == Some(ComponentApply(a.failed.value)) && r.fx.updates == FrontUpdates(multiTenant, request, obs))
      && (a.failed.None? && config.hasNoLicense
          ==> r.gate == Some(FeatureNotLicensed) && r.fx.updates == FrontUpdates(multiTenant, request, obs))
      && (a.failed.None? && !config.hasNoLicense && !obs.available
          ==> r.gate == Some(NotAvailable) && r.fx.updates == FrontUpdates(multiTenant, request, obs))
      && (a.failed.None? && !config.hasNoLicense && obs.available
          ==> && r.gate == (if obs.statusUpdateFails then Some(StatusUpdate) else None)
              && r.fx.updates == FrontUpdates(multiTenant, request, obs) + [config.instance.(state := TigeraStatusReady)])
  {
    ToApply(multiTenant, request, obs);
    ReportFacts(ApplyUntilFailure(Components, obs.applyFails), obs, ConfigIn(multiTenant, request, obs));
  }

  /** Lines 458-462: a component that fails to apply degrades the pass
      (ResourceUpdateError) and returns the error; nothing is written back. */
  lemma {:induction false} ApplyFailure(multiTenant: bool, request: Request, obs: Observations)
    requires ReachesApply(multiTenant, request, obs)
    requires ApplyUntilFailure(Components, obs.applyFails).failed.Some?
    ensures var r := Reconciled(multiTenant, request, obs);
      var c := ApplyUntilFailure(Components, obs.applyFails).failed.value;
      && c in obs.applyFails
      && StoppedAt(r, ComponentApply(c), Error(ComponentApply(c)), [DegradedSet(ResourceUpdateError, ComponentApply(c))])
      && r.fx.updates == FrontUpdates(multiTenant, request, obs)
  {
    var c := ApplyUntilFailure(Components, obs.applyFails).failed.value;
    FinalRun(multiTenant, request, obs);
    FoundPassTabled(multiTenant, request, obs);
    ComponentApplyTabled(c);
  }

  lemma {:induction false} ComponentApplyTabled(c: Component)
    ensures Disposition(ComponentApply(c)) == Error(ComponentApply(c))
    ensures EndCalls(Some(ComponentApply(c))) == [DegradedSet(ResourceUpdateError, ComponentApply(c))]
  {
  }

  /** Lines 465-469: without the compliance feature in the license, all
      three components are still applied, then the pass is degraded
      (ResourceValidationError) and returns with no error; Degraded is not
      cleared and Ready is not written. */
  lemma {:induction false} UnlicensedTransition(multiTenant: bool, request: Request, obs: Observations)
    requires ReachesApply(multiTenant, request, obs)
    requires ApplyUntilFailure(Components, obs.applyFails).failed.None?
    requires !obs.license.value.complianceActive
    ensures var r := Reconciled(multiTenant, request, obs);
      && r.fx.applied == Components
      && StoppedAt(r, FeatureNotLicensed, Done, [DegradedSet(ResourceValidationError, FeatureNotLicensed)])
      && r.fx.updates == FrontUpdates(multiTenant, request, obs)
  {
    FinalRun(multiTenant, request, obs);
    StoppedAtGate(multiTenant, request, obs, FeatureNotLicensed);
  }

  /** Lines 471-477: a licensed pass clears Degraded; when the status
      manager does not report the components available it requeues after
      the standard retry and writes nothing back. */
  lemma {:induction false} UnavailableTransition(multiTenant: bool, request: Request, obs: Observations)
    requires ReachesApply(multiTenant, request, obs)
    requires ApplyUntilFailure(Components, obs.applyFails).failed.None?
    requires obs.license.value.complianceActive && !obs.available
    ensures var r := Reconciled(multiTenant, request, obs);
      && StoppedAt(r, NotAvailable, RequeueAfterStandardRetry, [DegradedCleared])
      && r.fx.updates == FrontUpdates(multiTenant, request, obs)
  {
    FinalRun(multiTenant, request, obs);
    StoppedAtGate(multiTenant, request, obs, NotAvailable);
  }

  /** Lines 471-485: a licensed pass with everything available clears
      Degraded, writes Status.State = Ready to the CR, and returns the error
      of that write, if any. */
  lemma {:induction false} ReadyTransition(multiTenant: bool, request: Request, obs: Observations)
    requires ReachesApply(multiTenant, request, obs)
    requires ApplyUntilFailure(Components, obs.applyFails).failed.None?
    requires obs.license.value.complianceActive && obs.available
    ensures var r := Reconciled(multiTenant, request, obs);
      var instance := GetCCS(obs, multiTenant, request.namespace).value;
      && r.fx.calls == [CRFound, DegradedCleared]
      && r.fx.updates == FrontUpdates(multiTenant, request, obs) + [instance.(state := TigeraStatusReady)]
      && r.outcome == (if obs.statusUpdateFails then Error(StatusUpdate) else Done)
  {
    FinalRun(multiTenant, request, obs);
    FoundPassTabled(multiTenant, request, obs);
  }

  /** Lines 479-485: Status.State = Ready is written to the CR exactly when
      the pass gets through the apply loop with the compliance feature
      licensed and the components available; apart from it, the only write
      to the CR status is the TigeraStatus block's. */
  lemma {:induction false} ReadyOnlyWhenAvailable(multiTenant: bool, request: Request, obs: Observations)
    ensures Reconciled(multiTenant, request, obs).fx.updates
         == FrontUpdates(multiTenant, request, obs)
            + if ReachesApply(multiTenant, request, obs) && ApplyUntilFailure(Components, obs.applyFails).failed.None?
                 && obs.license.value.complianceActive && obs.available
              then [GetCCS(obs, multiTenant, request.namespace).value.(state := TigeraStatusReady)] else []
  {
    if ReachesApply(multiTenant, request, obs) {
      FinalRun(multiTenant, request, obs);
    } else if !ReachesCertificates(multiTenant, request, obs) || !CertificatesReady(obs, TopologyIn(obs)) {
      StopsBeforeBundle(multiTenant, request, obs);
    } else {
      StopsBeforeApply(multiTenant, request, obs);
    }
  }

  /** Lines 245-257, 404-409 and 479-483: once the CR is found, every error
      the pass returns names the check that failed, and the pass has set
      Degraded for it, except for the TigeraStatus read, the CR status write
      of the TigeraStatus block, the tenant namespaces and the final Ready
      write, which return their error without setting Degraded (the last
      after having cleared it). */
  lemma {:induction false} ErrorsAndDegraded(multiTenant: bool, request: Request, obs: Observations)
    requires CcsFound(multiTenant, request, obs) && Reconciled(multiTenant, request, obs).outcome.Error?
    ensures var r := Reconciled(multiTenant, request, obs);
      var g := r.outcome.at;
      && r.gate == Some(g)
      && (g in {TigeraStatusQuery, ConditionsUpdate, TenantNamespacesQuery} ==> r.fx.calls == [CRFound])
      && (g == StatusUpdate ==> r.fx.calls == [CRFound, DegradedCleared])
      && (g !in {TigeraStatusQuery, ConditionsUpdate, TenantNamespacesQuery, StatusUpdate}
          ==> DegradedReason(g).Some? && r.fx.calls == [CRFound, DegradedSet(DegradedReason(g).value, g)])
  {
    FoundPassTabled(multiTenant, request, obs);
  }

  /** A pass that found the CR never reports it missing afterwards. */
  lemma {:induction false} FoundPassGate(multiTenant: bool, request: Request, obs: Observations)
    requires CcsFound(multiTenant, request, obs)
    ensures Reconciled(multiTenant, request, obs).gate != Some(CcsMissing)
  {
    LookupPasses(multiTenant, request, obs);
    FoundStaysFound(multiTenant, obs, AtTigeraStatus(request, GetCCS(obs, multiTenant, request.namespace).value));
  }

  /** The status calls of a found pass that ends at gate, replayed from v. */
  lemma {:induction false} FoundCallsReplay(v: StatusView, gate: Option<Gate>)
    requires gate != Some(CcsMissing)
    ensures var after := Replay(v, [CRFound] + EndCalls(gate));
      && after.crExists
      && (gate.Some? && DegradedReason(gate.value).Some?
          ==> after.degraded == Some(Degradation(DegradedReason(gate.value).value, gate.value)))
      && (gate.None? || gate == Some(NotAvailable) || gate == Some(StatusUpdate) ==> after.degraded == None)
      && (EndCalls(gate) == [] ==> after.degraded == v.degraded)
  {
    ReplayConcat(v, [CRFound], EndCalls(gate));
    var found := Replay(v, [CRFound]);
    assert found == v.(crExists := true);
    var ends := EndCalls(gate);
    if ends != [] {
      assert ends[1..] == [];
      assert Replay(found, ends) == Step(found, ends[0]);
    }
  }

  /** What the status manager holds after a pass that found the CR, from
      any state v: the CR is recorded as present; Degraded holds the reason
      and check the pass stopped at when it set one, is cleared when the pass
      went past the license check, and is left as it was where the pass
      returned without touching it. */
  lemma {:induction false} StatusAfterPass(multiTenant: bool, request: Request, obs: Observations, v: StatusView)
    requires CcsFound(multiTenant, request, obs)
    ensures var r := Reconciled(multiTenant, request, obs);
      var after := Replay(v, r.fx.calls);
      && after.crExists
      && (r.gate.Some? && DegradedReason(r.gate.value).Some?
          ==> after.degraded == Some(Degradation(DegradedReason(r.gate.value).value, r.gate.value)))
      && (r.gate.None? || r.gate == Some(NotAvailable) || r.gate == Some(StatusUpdate) ==> after.degraded == None)
      && (r.gate.Some? && r.gate.value in {TigeraStatusQuery, ConditionsUpdate, TenantNamespacesQuery}
          ==> after.degraded == v.degraded)
  {
    var r := Reconciled(multiTenant, request, obs);
    FoundPassTabled(multiTenant, request, obs);
    FoundPassGate(multiTenant, request, obs);
    FoundCallsReplay(v, r.gate);
  }
}
