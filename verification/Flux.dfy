/** The three Flux objects managed for a tenant: their names, their specs and how they are reported. */
module Flux {
  import opened Wrappers
  import opened Resources
  import Statuses
  import Versions

  const HELM_RELEASE_NAME := "kro-helm-release"
  const MCP_HELM_RELEASE_NAME := "kro-mcp-crds-helm-release"
  const OCI_REPOSITORY_NAME := "kro-oci-repository"
  const MCP_KUBECONFIG_SECRET := "kro-mcp-kubeconfig"
  const KUBECONFIG_KEY := "kubeconfig"
  const DEFAULT_RELEASE_NAME := "kro"

  /** The three writers of Flux objects. */
  datatype Which = Oci | Main | Crds

  /** The object each writer addresses. */
  function RefOf(which: Which, ns: Namespace): FluxRef {
    match which
    case Oci => FluxRef(OCIRepository, OCI_REPOSITORY_NAME, ns)
    case Main => FluxRef(HelmRelease, HELM_RELEASE_NAME, ns)
    case Crds => FluxRef(HelmRelease, MCP_HELM_RELEASE_NAME, ns)
  }

  /** createOciRepository */
  function OciRepositorySpec(v: KroVersion): FluxSpec {
    OCISpec(
      MINUTE,
      Versions.ChartURL(v),
      v.chartVersion,
      if v.chartPullSecret != "" then Some(v.chartPullSecret) else None)
  }

  /** createHelmRelease */
  function MainReleaseSpec(ns: Namespace, values: Option<Json>, workloadSecret: string): FluxSpec {
    ReleaseSpec(
      DEFAULT_RELEASE_NAME, MINUTE, KroSystem, KroSystem, Skip, 3,
      FluxRef(OCIRepository, OCI_REPOSITORY_NAME, ns), values, workloadSecret,
      MountKubeconfig(MCP_KUBECONFIG_SECRET))
  }

  /** createOrUpdateMCPCRDsHelmRelease */
  function CrdsReleaseSpec(ns: Namespace, mcpSecret: string): FluxSpec {
    ReleaseSpec(
      "kro-crds", MINUTE, KroSystem, KroSystem, CreateReplace, 3,
      FluxRef(OCIRepository, OCI_REPOSITORY_NAME, ns), None, mcpSecret, KeepOnlyCRDs)
  }

  /** The objects Delete removes, in its order. */
  function DeleteTargets(ns: Namespace): seq<FluxRef> {
    [ FluxRef(OCIRepository, OCI_REPOSITORY_NAME, ns),
      FluxRef(HelmRelease, HELM_RELEASE_NAME, ns),
      FluxRef(HelmRelease, MCP_HELM_RELEASE_NAME, ns) ]
  }

  /** managedResources: what a deleting Kro reports. */
  function ManagedResources(ns: Namespace, phase: InstancePhase): seq<ManagedResource> {
    [ ManagedResource(FluxRef(OCIRepository, OCI_REPOSITORY_NAME, ns), phase, "", PlatformCluster),
      ManagedResource(FluxRef(HelmRelease, HELM_RELEASE_NAME, ns), phase, "", PlatformCluster),
      ManagedResource(FluxRef(HelmRelease, MCP_HELM_RELEASE_NAME, ns), phase, "", PlatformCluster) ]
  }

  /** Condition `i` is the first Ready condition. */
  predicate FirstReady(cs: seq<Condition>, i: nat) {
    i < |cs| && cs[i].kind == "Ready" && forall j :: 0 <= j < i ==> cs[j].kind != "Ready"
  }

  /** The first Ready condition is True. */
  predicate SaysReady(cs: seq<Condition>) {
    exists i :: 0 <= i < |cs| && FirstReady(cs, i) && cs[i].status == CondTrue
  }

  /** A resource is reported as the object at `ref` tells by its conditions. */
  ghost predicate Tells(r: ManagedResource, ref: FluxRef, cs: seq<Condition>) {
    && r.ref == ref && r.location == PlatformCluster
    && r.phase == (if SaysReady(cs) then Ready else Progressing)
    && (SaysReady(cs) ==> r.message == "")
    && (forall i: nat :: FirstReady(cs, i) && cs[i].status != CondTrue ==> r.message == cs[i].message)
    && ((forall i: nat :: !FirstReady(cs, i)) ==> r.message == "")
  }

  /** resourceStatus: the phase and message a Flux object's Ready condition stands for. */
  function ResourceStatus(cs: seq<Condition>): (InstancePhase, string) {
    var i := Statuses.Find(cs, Statuses.READY);
    if i < |cs| && cs[i].status == CondTrue then (Ready, "")
    else if i < |cs| then (Progressing, cs[i].message)
    else (Progressing, "")
  }

  /** What a finished create pass reports, from the conditions its three writes returned. */
  function ReportedResources(ns: Namespace, oci: seq<Condition>, main: seq<Condition>, crds: seq<Condition>)
    : seq<ManagedResource>
  {
    var (ociPhase, ociMsg) := ResourceStatus(oci);
    var (hrPhase, hrMsg) := ResourceStatus(main);
    var (crdsPhase, crdsMsg) := ResourceStatus(crds);
    [ ManagedResource(FluxRef(OCIRepository, OCI_REPOSITORY_NAME, ns), ociPhase, ociMsg, PlatformCluster),
      ManagedResource(FluxRef(HelmRelease, HELM_RELEASE_NAME, ns), hrPhase, hrMsg, PlatformCluster),
      ManagedResource(FluxRef(HelmRelease, MCP_HELM_RELEASE_NAME, ns), crdsPhase, crdsMsg, PlatformCluster) ]
  }

  /** It is ready iff its first Ready condition is True, and else in progress, with that condition's message. */
  lemma ResourceStatusTells(ref: FluxRef, cs: seq<Condition>)
    ensures Tells(ManagedResource(ref, ResourceStatus(cs).0, ResourceStatus(cs).1, PlatformCluster), ref, cs)
    ensures ResourceStatus(cs).0 == Ready <==> SaysReady(cs)
  {
    var i := Statuses.Find(cs, Statuses.READY);
    if i < |cs| { assert FirstReady(cs, i); }
  }

  /** Every object is reported by what its own conditions tell. */
  lemma ReportTells(ns: Namespace, oci: seq<Condition>, main: seq<Condition>, crds: seq<Condition>)
    ensures var rs := ReportedResources(ns, oci, main, crds);
      && |rs| == 3
      && Tells(rs[0], FluxRef(OCIRepository, "kro-oci-repository", ns), oci)
      && Tells(rs[1], FluxRef(HelmRelease, "kro-helm-release", ns), main)
      && Tells(rs[2], FluxRef(HelmRelease, "kro-mcp-crds-helm-release", ns), crds)
  {
    ResourceStatusTells(FluxRef(OCIRepository, OCI_REPOSITORY_NAME, ns), oci);
    ResourceStatusTells(FluxRef(HelmRelease, HELM_RELEASE_NAME, ns), main);
    ResourceStatusTells(FluxRef(HelmRelease, MCP_HELM_RELEASE_NAME, ns), crds);
    hide Tells, ResourceStatus;
  }

  function Refs(rs: seq<ManagedResource>): seq<FluxRef> {
    seq(|rs|, i requires 0 <= i < |rs| => rs[i].ref)
  }

  /**
   One managed set: the objects written, those reported while installing or terminating, and those
   deleted are the same three distinct objects, and no two tenants share one.
   */
  lemma ManagedSetIsConserved(k: Key, phase: InstancePhase,
      oci: seq<Condition>, main: seq<Condition>, crds: seq<Condition>)
    ensures var targets := DeleteTargets(Tenant(k));
      && targets == Refs(ManagedResources(Tenant(k), phase))
      && targets == Refs(ReportedResources(Tenant(k), oci, main, crds))
      && (forall r <- ManagedResources(Tenant(k), phase) ::
            r.phase == phase && r.message == "" && r.location == PlatformCluster)
      && (forall r :: r in targets <==> exists which :: r == RefOf(which, Tenant(k)))
      && (forall i, j :: 0 <= i < j < |targets| ==> targets[i] != targets[j])
      && (forall other: Key, r :: other != k && r in targets ==> r !in DeleteTargets(Tenant(other)))
  {
    var targets := DeleteTargets(Tenant(k));
    assert targets[0] == RefOf(Oci, Tenant(k));
    assert targets[1] == RefOf(Main, Tenant(k));
    assert targets[2] == RefOf(Crds, Tenant(k));
    assert |HELM_RELEASE_NAME| != |MCP_HELM_RELEASE_NAME|;
  }

  /** What a chart source is to be, in terms of the version entry. */
  ghost predicate IsSourceOf(s: FluxSpec, v: KroVersion) {
    && s.OCISpec? && s.interval == 60 && s.tag == v.chartVersion && Versions.Means(v.chartURL, s.url)
    && (if v.chartPullSecret == "" then s.secretRef == None else s.secretRef == Some(v.chartPullSecret))
  }

  /** What both releases have in common: the chart of the tenant's source, into kro-system, with three retries. */
  ghost predicate IsRelease(s: FluxSpec, ns: Namespace) {
    && s.ReleaseSpec? && s.interval == 60 && s.retries == 3
    && s.targetNamespace == s.storageNamespace == KroSystem
    && s.chartRef == FluxRef(OCIRepository, "kro-oci-repository", ns)
  }

  /** The main release leaves the CRDs alone and mounts the kubeconfig of the control plane. */
  ghost predicate IsMain(s: FluxSpec, ns: Namespace) {
    && IsRelease(s, ns) && s.releaseName == "kro" && s.crds == Skip
    && s.postRenderer == MountKubeconfig("kro-mcp-kubeconfig")
  }

  /** The CRDs release installs them and nothing else, without values. */
  ghost predicate IsCrds(s: FluxSpec, ns: Namespace) {
    && IsRelease(s, ns) && s.releaseName == "kro-crds" && s.crds == CreateReplace
    && s.postRenderer == KeepOnlyCRDs && s.values == None
  }

  /** The builders do what the three objects are for. */
  lemma SpecsAreAsDescribed(v: KroVersion, ns: Namespace, values: Option<Json>, secret: string)
    ensures IsSourceOf(OciRepositorySpec(v), v)
    ensures IsMain(MainReleaseSpec(ns, values, secret), ns)
    ensures MainReleaseSpec(ns, values, secret).values == values
    ensures MainReleaseSpec(ns, values, secret).kubeconfigSecret == secret
    ensures IsCrds(CrdsReleaseSpec(ns, secret), ns) && CrdsReleaseSpec(ns, secret).kubeconfigSecret == secret
  {
    Versions.ChartURLIsNormal(v);
  }

  /**
   Nothing that should show is lost in the specs: two of them are equal iff what they were made from is,
   and the two releases, which share a chart source, never coincide.
   */
  lemma SpecsDetermineInputs(u: KroVersion, v: KroVersion, m: Namespace, n: Namespace,
      x: Option<Json>, y: Option<Json>, s: string, t: string)
    ensures OciRepositorySpec(u) == OciRepositorySpec(v) <==>
      && u.chartVersion == v.chartVersion && u.chartPullSecret == v.chartPullSecret
      && exists url :: Versions.Means(u.chartURL, url) && Versions.Means(v.chartURL, url)
    ensures MainReleaseSpec(m, x, s) == MainReleaseSpec(n, y, t) <==> m == n && x == y && s == t
    ensures CrdsReleaseSpec(m, s) == CrdsReleaseSpec(n, t) <==> m == n && s == t
    ensures MainReleaseSpec(m, x, s).chartRef == CrdsReleaseSpec(m, t).chartRef == RefOf(Oci, m)
    ensures MainReleaseSpec(m, x, s) != CrdsReleaseSpec(n, t)
  {
    Versions.ChartURLIsNormal(u);
    Versions.ChartURLIsNormal(v);
    if Versions.ChartURL(u) == Versions.ChartURL(v) {
      assert Versions.Means(u.chartURL, Versions.ChartURL(v)) && Versions.Means(v.chartURL, Versions.ChartURL(v));
    }
  }
}
