/** Shared vocabulary of the CCS controller model: the outcome of a read
    against the cluster, object keys, the Degraded reasons of the operator
    API, the components the controller applies, and the checks (gates) at
    which one reconcile pass can stop. */
module Operator {

  datatype Option<+T> = None | Some(value: T)

  /** The outcome of one read against the cluster store or a collaborator:
      the object, a NotFound error, or any other error. */
  datatype Fetch<+T> = Ok(value: T) | NotFound | Err

  /** client.ObjectKey; an empty namespace names a cluster-scoped object. */
  datatype ObjectKey = ObjectKey(namespace: string, name: string)

  /** reconcile.Request: the namespace and name of the object that triggered the pass. */
  datatype Request = Request(namespace: string, name: string)

  /** The name every ComplianceConfigurationSecurity resource is read under. */
  const CcsName: string := "tigera-secure"

  /** ResourceName: the name of the controller's own TigeraStatus. */
  const ResourceName: string := "complianceconfigurationsecurity"

  /** operatorv1.TigeraStatusReady, the value written to Status.State. */
  const TigeraStatusReady: string := "Ready"

  /** The Degraded reasons (operatorv1.TigeraStatusReason) the controller uses. */
  datatype Reason =
    | ResourceNotFound
    | ResourceNotReady
    | ResourceReadError
    | ResourceUpdateError
    | ResourceCreateError
    | ResourceValidationError

  /** The three rendered components, in the order the controller applies them. */
  datatype Component = NamespaceComponent | CertificateManagementComponent | CcsComponent

  const Components: seq<Component> := [NamespaceComponent, CertificateManagementComponent, CcsComponent]

  /** A ComplianceConfigurationSecurity as read from the cluster: its key and Status.State. */
  datatype Ccs = Ccs(key: ObjectKey, state: string)

  /** The check at which a reconcile pass stopped. Every early return of
      Reconcile has its own gate; the pass that writes Ready stops at none. */
  datatype Gate =
    | NoNamespace                 // multi-tenant request without a namespace
    | TenantMissing               // no Tenant in the request's namespace
    | TenantQuery                 // error reading the Tenant
    | CcsMissing                  // the ComplianceConfigurationSecurity does not exist
    | CcsQuery                    // error reading it
    | TigeraStatusQuery           // error reading the controller's TigeraStatus
    | ConditionsUpdate            // error writing the CR status in the TigeraStatus block
    | APIServerNotReady
    | TierWatchPending
    | TierMissing
    | TierQuery
    | LicenseAPIPending
    | LicenseMissing
    | LicenseQuery
    | InstallationMissing
    | InstallationQuery
    | PullSecretsQuery
    | ManagementClusterQuery
    | ConnectionQuery
    | TopologyConflict            // both ManagementCluster and ManagementClusterConnection exist
    | CertificateAuthority        // the certificate manager could not be created
    | ManagerTLSQuery
    | LinseedCertificateQuery
    | LinseedCertificatePending   // the Linseed certificate does not exist yet
    | TenantBundleQuery
    | APIKeyPairQuery
    | AuthenticationQuery
    | AuthenticationNotReady
    | TenantNamespacesQuery
    | KeyValidatorQuery
    | ImageSetUpdate
    | ComponentApply(component: Component)
    | FeatureNotLicensed
    | NotAvailable
    | StatusUpdate
}
