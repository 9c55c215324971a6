/**
 The API objects the operator reads and writes, as values: the tenant's Kro, the operator's
 ProviderConfig, the Flux objects, the access requests and the secrets.
 */
module Resources {
  import opened Wrappers

  /** A namespaced object key; one Kro per managed control plane. */
  datatype Key = Key(name: string, namespace: string)

  /**
   Namespaces the operator touches. `Tenant(k)` stands for StableMCPNamespace(k.name, k.namespace);
   being a constructor makes it injective, which is the assumption made about that library function.
   */
  datatype Namespace = PodNamespace | KroSystem | Tenant(key: Key)

  datatype ConditionStatus = CondTrue | CondFalse | CondUnknown

  datatype Condition = Condition(
    kind: string,
    status: ConditionStatus,
    observedGeneration: nat,
    reason: string,
    message: string,
    lastTransition: nat)

  datatype InstancePhase = Unset | Pending | Progressing | Ready | Failing | Terminating | UnknownPhase

  datatype FluxKind = OCIRepository | HelmRelease

  datatype FluxRef = FluxRef(kind: FluxKind, name: string, namespace: Namespace)

  datatype Location = ManagedControlPlane | PlatformCluster

  datatype ManagedResource = ManagedResource(
    ref: FluxRef,
    phase: InstancePhase,
    message: string,
    location: Location)

  datatype Status = Status(
    conditions: seq<Condition>,
    phase: InstancePhase,
    observedGeneration: nat,
    resources: seq<ManagedResource>)

  const EMPTY_STATUS := Status([], Unset, 0, [])

  /** The value of the openmcp.cloud/operation annotation. */
  datatype Operation = NoOperation | Ignore | ReconcileNow

  /**
   The Kro object. `rv` is the resource version, `finalizer` whether this operator's finalizer is
   present, `foreign` whether somebody else's is.
   */
  datatype Kro = Kro(
    version: string,
    op: Operation,
    generation: nat,
    rv: nat,
    deleting: bool,
    finalizer: bool,
    foreign: bool,
    status: Status)

  /** Raw Helm values; `pullSecrets` is what parsing them yields: secret names, or an error. */
  datatype Json = Json(raw: string, pullSecrets: Result<seq<string>, string>)

  datatype KroVersion = KroVersion(
    version: string,
    chartVersion: string,
    chartURL: Option<string>,
    chartPullSecret: string,
    helmValues: Option<Json>)

  datatype ProviderConfig = ProviderConfig(versions: seq<KroVersion>, pollInterval: Option<int>)

  /** What a HelmRelease does with the CRDs of its chart, and what it makes of the rendered objects. */
  datatype CRDsPolicy = Skip | CreateReplace
  datatype PostRenderer = MountKubeconfig(secret: string) | KeepOnlyCRDs

  datatype FluxSpec =
    | OCISpec(interval: int, url: string, tag: string, secretRef: Option<string>)
    | ReleaseSpec(
        releaseName: string,
        interval: int,
        targetNamespace: Namespace,
        storageNamespace: Namespace,
        crds: CRDsPolicy,
        retries: nat,
        chartRef: FluxRef,
        values: Option<Json>,
        kubeconfigSecret: string,
        postRenderer: PostRenderer)

  /**
   A stored Flux object. The server counts its `generation` up with every change of the spec; `held` says
   that Flux's own finalizer keeps it after a deletion request.
   */
  datatype FluxObject = FluxObject(
    spec: FluxSpec,
    generation: nat,
    rv: nat,
    deleting: bool,
    held: bool,
    conditions: seq<Condition>)

  datatype ClusterKind = MCP | Workload

  /** The AccessRequest of one Kro for one of its clusters. */
  datatype RequestRef = RequestRef(key: Key, cluster: ClusterKind)

  datatype AccessRequest = AccessRequest(deleting: bool, granted: bool, secretRef: Option<string>)

  /** Secrets live on the platform cluster, or on the workload cluster that access for a Kro leads to. */
  datatype SecretHost = PlatformHost | WorkloadHost(key: Key)
  datatype SecretRef = SecretRef(host: SecretHost, namespace: Namespace, name: string)
  datatype Secret = Secret(kind: string, data: map<string, string>)

  /** Durations are counted in seconds. */
  const MINUTE := 60
}
