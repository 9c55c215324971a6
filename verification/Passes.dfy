/**
 One reconcile pass of SPReconciler.Reconcile and the KroReconciler methods below it, cut at its API
 calls. A pass rests at the call it is about to make (`pc`); `Step` says what the code does with the
 answer, up to the next call. Step sees answers only, never the stores: what a call does to the
 stores, and which answers the stores allow, is the business of Worlds.dfy.
 */
module Passes {
  import opened Wrappers
  import opened Resources
  import opened Statuses
  import opened Flux
  import Versions

  /** What a pass returns to the work queue: a requeue delay, or an error. */
  datatype Outcome = Outcome(requeue: int, failed: bool)

  /** The steps of CreateOrUpdate in KroReconciler. */
  datatype Task =
    | ReadSecret(source: SecretRef)
    | ReadKubeconfig(source: SecretRef)
    | PutSecret(target: SecretRef)
    | PutNamespace
    | ReadWorkloadRequest
    | PutFlux(which: Which)
    | Abort(reason: string)

  /** The call a pass is about to make. */
  datatype Pc =
    | GetKro
    | PatchAnnotation
    | LoadConfig
    | GetForFinalizer
    | RecreateKro
    | UpdateFinalizer
    | CheckRequest(cluster: ClusterKind)
    | ReconcileAccess
    | GetCluster(cluster: ClusterKind)
    | GetRequest(cluster: ClusterKind)
    | ResolveNamespace
    | Look(task: Task, rest: seq<Task>)
    | Write(task: Task, rest: seq<Task>, seen: Option<nat>)
    | CountRGDs
    | DeleteObject(i: nat, ref: FluxRef)
    | ConfirmGone(i: nat, ref: FluxRef)
    | RevokeAccess
    | RemoveFinalizer
    | PatchStatus(result: Outcome)
    | Done(result: Outcome)

  datatype Answer =
    | Failed(error: string)
    | NotFound
    | Ok
    | GotKro(kro: Kro)
    | GotFlux(flux: FluxObject)
    | GotRequest(request: AccessRequest)
    | GotSecret(secret: Secret)
    | GotCluster(present: bool)
    | Delay(seconds: int)
    | Counted(n: nat)
    | NoSuchKind
    | Loaded(config: Option<ProviderConfig>, epoch: nat)

  datatype ClusterContext = ClusterContext(mcp: bool, mcpSecret: string, workload: bool, workloadSecret: string)

  const NO_CLUSTERS := ClusterContext(false, "", false, "")

  datatype Mode = Undecided | Creating | Deleting

  /**
   The local state of a pass. `obj` is the in-memory Kro, `snapshot` the status copied before any
   change, `config` the copy of the cached config and `epoch` the number of the cache write it came
   from, `delay` what the access provider last returned, `got` the conditions the Flux writes returned,
   `lingering` is objectsStillExist.
   */
  datatype Pass = Pass(
    key: Key,
    now: nat,
    needsWorkload: bool,
    pc: Pc,
    mode: Mode,
    obj: Kro,
    snapshot: Status,
    config: Option<ProviderConfig>,
    epoch: Option<nat>,
    ctx: ClusterContext,
    delay: int,
    version: KroVersion,
    carry: Secret,
    fluxSecret: string,
    got: map<Which, seq<Condition>>,
    lingering: bool)

  const NO_KRO := Kro("", NoOperation, 0, 0, false, false, false, EMPTY_STATUS)
  const NO_VERSION := KroVersion("", "", None, "", None)
  const NO_SECRET := Secret("", map[])

  function StartPass(k: Key, now: nat, needsWorkload: bool): Pass {
    Pass(k, now, needsWorkload, GetKro, Undecided, NO_KRO, EMPTY_STATUS, None, None, NO_CLUSTERS, 0,
         NO_VERSION, NO_SECRET, "", map[], false)
  }

  // ---------- leaving the pass ----------

  /** The pass is carrying out the plan of CreateOrUpdate. */
  predicate AtTask(p: Pass) { p.pc.Look? || p.pc.Write? }

  predicate Leaving(q: Pass) { q.pc.Done? || q.pc.PatchStatus? }

  function ResultOf(q: Pass): Outcome
    requires Leaving(q)
  {
    q.pc.result
  }

  predicate Fails(q: Pass) { Leaving(q) && ResultOf(q).failed }

  /** Leaving without an error: something was achieved, or is to be waited for. */
  predicate Succeeds(q: Pass) { Leaving(q) && !ResultOf(q).failed }

  /** `q` is `p` on its way out: nothing but the reported status and the program counter differ. */
  predicate Leaves(p: Pass, q: Pass) {
    Leaving(q) && WritesBack(q) && q == p.(pc := q.pc, obj := p.obj.(status := q.obj.status))
  }

  /** The status is about to be written back iff it differs from what it was. */
  predicate WritesBack(q: Pass) { q.pc.PatchStatus? <==> q.obj.status != q.snapshot }

  /** The deferred updateStatus: a patch is attempted iff the status differs from the snapshot. */
  function Close(p: Pass, r: Outcome): (q: Pass)
    ensures Leaves(p, q) && q.obj == p.obj && ResultOf(q) == r
  {
    p.(pc := if p.obj.status == p.snapshot then Done(r) else PatchStatus(r))
  }

  function Fail(p: Pass): (q: Pass)
    ensures Leaves(p, q) && q.obj == p.obj && Fails(q)
  {
    Close(p, Outcome(0, true))
  }

  function Poll(p: Pass): int { if p.config.Some? then Versions.PollInterval(p.config.value) else 0 }

  /** A requested requeue wins; otherwise the poll interval applies. */
  function Return(p: Pass, requeue: int): (q: Pass)
    ensures Leaves(p, q) && q.obj == p.obj && Succeeds(q)
    ensures ResultOf(q).requeue == if requeue > 0 then requeue else Poll(p)
  {
    Close(p, Outcome(if requeue > 0 then requeue else Poll(p), false))
  }

  function FailProgressing(p: Pass, message: string): (q: Pass)
    ensures Leaves(p, q) && Marked(p.obj, q.obj, Progressing) && Fails(q)
  {
    Fail(p.(obj := MarkProgressing(p.obj, p.now, RECONCILE_ERROR, message)))
  }

  function FailTerminating(p: Pass, message: string): (q: Pass)
    ensures Leaves(p, q) && Marked(p.obj, q.obj, Terminating) && Fails(q)
  {
    Fail(p.(obj := MarkTerminatingWithReason(p.obj, p.now, RECONCILE_ERROR, message)))
  }

  function ErrorOf(a: Answer): string {
    if a.Failed? then a.error else if a.NotFound? then "not found" else "unexpected answer"
  }

  /** The phase of the object in memory, which is what the pass would leave behind. */
  predicate Shows(q: Pass, phase: InstancePhase) { q.obj.status.phase == phase }

  /** How a pass that gets no further with its clusters reports. */
  function Working(mode: Mode): InstancePhase { if mode == Creating then Progressing else Terminating }

  /** What no step of a pass changes. */
  predicate Keeps(p: Pass, q: Pass) { q.key == p.key && q.now == p.now && q.needsWorkload == p.needsWorkload }

  /** Having loaded its config a pass keeps it, and never ends well without saying when to come back. */
  predicate Stays(p: Pass, q: Pass) {
    && Keeps(p, q) && q.config == p.config && q.epoch == p.epoch && q.snapshot == p.snapshot
    && (Succeeds(q) ==> ResultOf(q).requeue > 0 || ResultOf(q).requeue == Poll(p))
    && (Leaving(q) ==> WritesBack(q))
  }

  /** The access request is gone, or on its way. */
  predicate RequestLost(a: Answer) { a.NotFound? || (a.GotRequest? && a.request.deleting) }

  /** The control plane lists no ResourceGraphDefinition, or does not know the kind. */
  predicate NoneListed(a: Answer) { a == Counted(0) || a.NoSuchKind? || a.NotFound? }

  // ---------- SPReconciler ----------

  function AfterGetKro(p: Pass, a: Answer): (q: Pass)
    ensures Keeps(p, q) && q.config == p.config && q.epoch == p.epoch
    ensures q.ctx == p.ctx && q.got == p.got && q.mode == p.mode
      && q.snapshot == (if q.pc.LoadConfig? then q.obj.status else p.snapshot)
    ensures q.pc.Done? || ((q.pc.PatchAnnotation? || q.pc.LoadConfig?) && a == GotKro(q.obj))
    ensures Succeeds(q) ==> a.NotFound? || (a.GotKro? && a.kro.op == Ignore)
  {
    match a
    case GotKro(kro) =>
      if kro.op == Ignore then p.(pc := Done(Outcome(0, false)))
      else if kro.op == ReconcileNow then p.(obj := kro, pc := PatchAnnotation)
      else p.(obj := kro, snapshot := kro.status, pc := LoadConfig)
    case NotFound => p.(pc := Done(Outcome(0, false)))
    case _ => p.(pc := Done(Outcome(0, true)))
  }

  function AfterPatchAnnotation(p: Pass, a: Answer): (q: Pass)
    ensures Keeps(p, q) && q.config == p.config && q.epoch == p.epoch
    ensures q.ctx == p.ctx && q.got == p.got && q.mode == p.mode
    ensures q.pc.Done? || (q.pc.LoadConfig? && a == GotKro(q.obj) && q.snapshot == q.obj.status)
    ensures !Succeeds(q)
  {
    if a.GotKro? then p.(obj := a.kro, snapshot := a.kro.status, pc := LoadConfig)
    else p.(pc := Done(Outcome(0, true)))
  }

  function AfterLoadConfig(p: Pass, a: Answer): (q: Pass)
    ensures Keeps(p, q) && q.snapshot == p.snapshot && q.ctx == p.ctx && q.got == p.got
    ensures
      || (Leaving(q) && q.mode == p.mode)
      || (q.pc.GetForFinalizer? && q.mode == Creating && !p.obj.deleting)
      || (q.pc == CheckRequest(MCP) && q.mode == Deleting && p.obj.deleting)
    ensures Leaving(q) ==> WritesBack(q)
    ensures !Leaving(q) <==> a.Loaded? && a.config.Some?
    ensures if Leaving(q) then Shows(q, Progressing) else q.obj == p.obj
    ensures a.Loaded? ==> q.config == a.config && q.epoch == Some(a.epoch)
    ensures !Succeeds(q)
  {
    if !a.Loaded? then FailProgressing(p, ErrorOf(a))
    else
      var q := p.(config := a.config, epoch := Some(a.epoch));
      if a.config.None? then FailProgressing(q, "No ProviderConfig found")
      else if p.obj.deleting then q.(mode := Deleting, pc := CheckRequest(MCP))
      else q.(mode := Creating, pc := GetForFinalizer)
  }

  /** controllerutil.CreateOrUpdate with AddFinalizer: re-read, then write only if it was missing. */
  function AfterGetForFinalizer(p: Pass, a: Answer): (q: Pass)
    ensures Stays(p, q) && q.ctx == p.ctx && q.got == p.got && q.mode == p.mode
    ensures Leaving(q) || q.pc.ReconcileAccess? || q.pc.UpdateFinalizer? || q.pc.RecreateKro?
    ensures q.pc.ReconcileAccess? <==> a.GotKro? && a.kro.finalizer
    ensures q.pc.UpdateFinalizer? <==> a.GotKro? && !a.kro.finalizer
    ensures q.pc.RecreateKro? <==> a.NotFound?
    ensures a.GotKro? ==> q.obj == a.kro.(finalizer := true)
    ensures if Leaving(q) then Shows(q, Progressing) else a.NotFound? ==> q.obj == p.obj.(finalizer := true)
    ensures !Succeeds(q)
  {
    hide Marked;
    match a
    case GotKro(kro) =>
      if kro.finalizer then p.(obj := kro, pc := ReconcileAccess)
      else p.(obj := kro.(finalizer := true), pc := UpdateFinalizer)
    case NotFound => p.(obj := p.obj.(finalizer := true), pc := RecreateKro)
    case _ => FailProgressing(p, "failed to add finalizer")
  }

  function AfterUpdateFinalizer(p: Pass, a: Answer): (q: Pass)
    ensures Stays(p, q) && q.ctx == p.ctx && q.got == p.got && q.mode == p.mode
    ensures Leaving(q) || (q.pc.ReconcileAccess? && a == GotKro(q.obj))
    ensures !Succeeds(q) && (Fails(q) <==> !a.GotKro?) && (Fails(q) ==> Shows(q, Progressing))
  {
    if a.GotKro? then p.(obj := a.kro, pc := ReconcileAccess)
    else FailProgressing(p, "failed to add finalizer")
  }

  /** areAccessRequestsInDeletion */
  function AfterCheckRequest(p: Pass, cluster: ClusterKind, a: Answer): (q: Pass)
    ensures Stays(p, q) && q.ctx == p.ctx && q.got == p.got && q.mode == p.mode
    ensures if Leaving(q) then Fails(q) && Shows(q, Progressing) else q.obj == p.obj
    ensures Leaving(q) || q.pc == CheckRequest(Workload) || q.pc.ReconcileAccess? || q.pc.RevokeAccess?
    ensures q.pc.RevokeAccess? <==> RequestLost(a)
  {
    hide Marked;
    match a
    case NotFound => p.(pc := RevokeAccess)
    case GotRequest(r) =>
      if r.deleting then p.(pc := RevokeAccess)
      else if cluster == MCP && p.needsWorkload then p.(pc := CheckRequest(Workload))
      else p.(pc := ReconcileAccess)
    case _ => FailProgressing(p, "failed to check access requests in deletion")
  }

  function FailClusters(p: Pass): (q: Pass)
    ensures Leaves(p, q) && Marked(p.obj, q.obj, if p.mode == Creating then Progressing else Terminating) && Fails(q)
  {
    if p.mode == Creating then FailProgressing(p, "cluster setup error")
    else FailTerminating(p, "cluster cleanup error")
  }

  /** Getting access touches the object only to say that it failed, or that the domain logic is next. */
  predicate Accesses(p: Pass, q: Pass) {
    if Fails(q) || q.pc.ResolveNamespace? then Shows(q, Working(p.mode)) else q.obj == p.obj
  }

  /** The end of clusters(): with the domain logic next, unless a deletion got a non-zero delay. */
  function WithClusters(p: Pass): (q: Pass)
    ensures Stays(p, q) && q.got == p.got && q.mode == p.mode && q.ctx == p.ctx && q.delay == p.delay
    ensures Leaving(q) || q.pc.ResolveNamespace? || (q.pc.RevokeAccess? && p.delay != 0 && p.mode != Creating)
    ensures Accesses(p, q) && !Fails(q) && (p.delay == 0 ==> q.pc.ResolveNamespace?)
    ensures Succeeds(q) ==> p.mode == Creating
  {
    if p.mode == Creating then
      if p.delay > 0 then Return(p, p.delay)
      else p.(obj := MarkProgressing(p.obj, p.now, "Reconciling", "Reconcile in progress"), pc := ResolveNamespace)
    else if p.delay == 0 then p.(obj := MarkTerminating(p.obj, p.now), pc := ResolveNamespace)
    else p.(pc := RevokeAccess)
  }

  /** A missing cluster blocks creation for `wait` and is passed through to deletion. */
  function WithoutCluster(p: Pass, wait: int): (q: Pass)
    requires wait > 0
    ensures Stays(p, q) && q.got == p.got && q.mode == p.mode && q.ctx == p.ctx && (p.mode == Creating ==> Leaving(q))
    ensures Leaving(q) || (q.pc.ResolveNamespace? && q.delay == 0)
    ensures Accesses(p, q) && !Fails(q)
    ensures Succeeds(q) ==> p.mode == Creating
  {
    WithClusters(p.(delay := if p.mode == Creating then wait else 0))
  }

  function AfterReconcileAccess(p: Pass, a: Answer): (q: Pass)
    ensures Stays(p, q) && q.got == p.got && q.mode == p.mode && q.ctx == p.ctx
    ensures Leaving(q) || q.pc == GetCluster(MCP)
      || (q.pc.ResolveNamespace? && q.delay == 0 && a.Delay? && a.seconds > 0 && p.mode != Creating)
    ensures !Leaving(q) ==> a.Delay? && (a.seconds >= 0 ==> q.delay == 0) && (p.mode == Creating ==> a.seconds <= 0)
    ensures a.Delay? && a.seconds > 0 ==> q.pc.ResolveNamespace? || p.mode == Creating
    ensures Accesses(p, q) && (Fails(q) <==> !a.Delay?)
    ensures Succeeds(q) ==> p.mode == Creating
  {
    if !a.Delay? then FailClusters(p)
    else if a.seconds > 0 then WithoutCluster(p, a.seconds)
    else p.(delay := a.seconds, pc := GetCluster(MCP))
  }

  function AfterGetCluster(p: Pass, cluster: ClusterKind, a: Answer): (q: Pass)
    ensures Stays(p, q) && q.got == p.got && q.mode == p.mode
    ensures
      || Leaving(q)
      || (q.pc == GetRequest(cluster) && a == GotCluster(true))
      || (q.pc.ResolveNamespace? && a == GotCluster(false))
      || (q.pc.RevokeAccess? && p.delay != 0 && p.mode != Creating)
    ensures !Leaving(q) ==> q.ctx.mcp == (p.ctx.mcp || (cluster == MCP && a == GotCluster(true)))
    ensures a == GotCluster(false) ==> if p.mode == Creating then Leaving(q) else !Leaving(q)
    ensures Accesses(p, q) && (Fails(q) <==> !a.GotCluster?)
    ensures p.delay == 0 ==> Leaving(q) || q.delay == 0
    ensures Succeeds(q) ==> p.mode == Creating
  {
    if !a.GotCluster? then FailClusters(p)
    else if cluster == MCP then
      if a.present then p.(ctx := p.ctx.(mcp := true), pc := GetRequest(cluster))
      else WithoutCluster(p, 10)
    else
      if a.present then p.(ctx := p.ctx.(workload := true), pc := GetRequest(cluster))
      else if p.mode == Creating then WithoutCluster(p, 10)
      else WithClusters(p)
  }

  function SecretName(r: AccessRequest): string {
    if r.secretRef.Some? then r.secretRef.value else ""
  }

  function AfterGetRequest(p: Pass, cluster: ClusterKind, a: Answer): (q: Pass)
    ensures Stays(p, q) && q.got == p.got && q.mode == p.mode && q.delay == p.delay
    ensures q.ctx.mcp == p.ctx.mcp && q.ctx.workload == p.ctx.workload
    ensures Accesses(p, q) && (Fails(q) <==> !a.GotRequest?)
    ensures p.delay == 0 && a.GotRequest? ==> q.pc == GetCluster(Workload) || q.pc.ResolveNamespace?
    ensures Leaving(q) || q.pc == GetCluster(Workload) || q.pc.ResolveNamespace?
      || (q.pc.RevokeAccess? && p.delay != 0 && p.mode != Creating)
    ensures Succeeds(q) ==> p.mode == Creating
  {
    if !a.GotRequest? then FailClusters(p)
    else if cluster == MCP then
      var q := p.(ctx := p.ctx.(mcpSecret := SecretName(a.request)));
      if p.needsWorkload then q.(pc := GetCluster(Workload)) else WithClusters(q)
    else WithClusters(p.(ctx := p.ctx.(workloadSecret := SecretName(a.request))))
  }

  function AfterRevokeAccess(p: Pass, a: Answer): (q: Pass)
    ensures Stays(p, q) && q.got == p.got && q.mode == p.mode
    ensures Leaving(q) || q.pc.RemoveFinalizer?
    ensures q.pc.RemoveFinalizer? <==> a.Delay? && a.seconds <= 0
    ensures if a.Delay? then q.obj == p.obj.(finalizer := q.obj.finalizer) else Fails(q) && Shows(q, Terminating)
    ensures Succeeds(q) ==> a.Delay? && a.seconds > 0
  {
    if !a.Delay? then FailTerminating(p, "failed cluster access reconcile delete")
    else if a.seconds > 0 then Return(p, a.seconds)
    else p.(obj := p.obj.(finalizer := false), pc := RemoveFinalizer)
  }

  /** The response of the update overwrites the object, its status included. */
  function AfterRemoveFinalizer(p: Pass, a: Answer): (q: Pass)
    ensures Stays(p, q) && q.got == p.got && q.mode == p.mode && Leaving(q)
    ensures Succeeds(q) <==> a.GotKro?
    ensures if a.GotKro? then q.obj == a.kro else Shows(q, Terminating)
  {
    if a.GotKro? then Return(p.(obj := a.kro), 0)
    else FailTerminating(p, "failed to remove finalizer")
  }

  function AfterPatchStatus(p: Pass, r: Outcome, a: Answer): (q: Pass)
    ensures q == p.(pc := q.pc) && q.pc.Done?
    ensures Succeeds(q) ==> !r.failed && q.pc == Done(r)
  {
    p.(pc := Done(if a.Ok? || a.NotFound? then r else r.(failed := true)))
  }

  // ---------- KroReconciler.CreateOrUpdate ----------

  function PullSource(name: string): SecretRef { SecretRef(PlatformHost, PodNamespace, name) }
  function ChartPullTarget(k: Key, name: string): SecretRef { SecretRef(PlatformHost, Tenant(k), name) }
  function ImagePullTarget(k: Key, name: string): SecretRef { SecretRef(WorkloadHost(k), KroSystem, name) }
  function KubeconfigTarget(k: Key): SecretRef { ImagePullTarget(k, MCP_KUBECONFIG_SECRET) }

  /** replicateChartPullSecret */
  function ChartSecretTasks(k: Key, name: string): seq<Task> {
    if name == "" then [] else [ReadSecret(PullSource(name)), PutSecret(ChartPullTarget(k, name))]
  }

  function CopyImageSecrets(k: Key, names: seq<string>): seq<Task> {
    if names == [] then []
    else [ReadSecret(PullSource(names[0])), PutSecret(ImagePullTarget(k, names[0]))] + CopyImageSecrets(k, names[1..])
  }

  /** replicateImagePullSecrets */
  function ImageSecretTasks(k: Key, workload: bool, values: Option<Json>): seq<Task> {
    match Versions.ExtractHelmValues(values)
    case Failure(e) => [Abort(e)]
    case Success(names) =>
      if names == [] then []
      else if !workload then [Abort("workload cluster is required to replicate image pull secrets but was nil")]
      else [PutNamespace] + CopyImageSecrets(k, names)
  }

  /** replicateMCPKubeconfig */
  function KubeconfigTasks(k: Key, ctx: ClusterContext): seq<Task> {
    if !ctx.workload then [Abort("workload cluster is required to replicate MCP kubeconfig but was nil")]
    else [ReadKubeconfig(ChartPullTarget(k, ctx.mcpSecret)), PutNamespace, PutSecret(KubeconfigTarget(k))]
  }

  const RELEASES: seq<Task> := [PutFlux(Crds), ReadWorkloadRequest, PutFlux(Main)]

  function Plan(k: Key, v: KroVersion, ctx: ClusterContext): seq<Task> {
    ChartSecretTasks(k, v.chartPullSecret) + ([PutFlux(Oci)]
      + (ImageSecretTasks(k, ctx.workload, v.helmValues) + (KubeconfigTasks(k, ctx) + RELEASES)))
  }

  function Desired(p: Pass, which: Which): FluxSpec {
    match which
    case Oci => OciRepositorySpec(p.version)
    case Main => MainReleaseSpec(Tenant(p.key), p.version.helmValues, p.fluxSecret)
    case Crds => CrdsReleaseSpec(Tenant(p.key), p.ctx.mcpSecret)
  }

  function Conditions(p: Pass, which: Which): seq<Condition> {
    if which in p.got then p.got[which] else []
  }

  predicate AllReady(p: Pass) {
    SaysReady(Conditions(p, Oci)) && SaysReady(Conditions(p, Main)) && SaysReady(Conditions(p, Crds))
  }

  /** Report the three objects; Ready only if all of them are. */
  function Conclude(p: Pass): (q: Pass)
    ensures Leaves(p, q) && q.obj.status.phase == (if AllReady(p) then Ready else Progressing)
    ensures Agrees(p.obj.status) ==> Agrees(q.obj.status)
    ensures q.obj.status.observedGeneration == p.obj.generation
  {
    var reported := p.(obj := p.obj.(status := p.obj.status.(resources :=
      ReportedResources(Tenant(p.key), Conditions(p, Oci), Conditions(p, Main), Conditions(p, Crds)))));
    var marked := if AllReady(p) then MarkReady(reported.obj, p.now)
      else MarkProgressing(reported.obj, p.now, "Reconciling", "Waiting for managed resources to become ready");
    Return(reported.(obj := marked), 0)
  }

  /** Every object is reported by what its own conditions tell; the pass comes back with the next poll. */
  lemma ConclusionTells(p: Pass)
    ensures var q := Conclude(p); var rs := q.obj.status.resources;
      && |rs| == 3
      && Tells(rs[0], FluxRef(OCIRepository, "kro-oci-repository", Tenant(p.key)), Conditions(p, Oci))
      && Tells(rs[1], FluxRef(HelmRelease, "kro-helm-release", Tenant(p.key)), Conditions(p, Main))
      && Tells(rs[2], FluxRef(HelmRelease, "kro-mcp-crds-helm-release", Tenant(p.key)), Conditions(p, Crds))
      && ResultOf(q) == Outcome(Poll(p), false)
  {
    hide Tells, ReportedResources, AllReady, Agrees, MarkReady, MarkProgressing, ResourceStatus, Conditions;
    ReportTells(Tenant(p.key), Conditions(p, Oci), Conditions(p, Main), Conditions(p, Crds));
  }

  /**
   Running the plan changes registers, and on leaving what is reported: Ready only if all three objects are.
   */
  ghost predicate OnPlan(p: Pass, q: Pass) {
    && (if Leaving(q) then
          && q.obj.status.observedGeneration == q.obj.generation
          && (q.obj.status.phase == Progressing || (q.obj.status.phase == Ready && AllReady(q)))
        else q.obj == p.obj)
    && q.obj == p.obj.(status := q.obj.status)
    && (Agrees(p.obj.status) ==> Agrees(q.obj.status))
    && (Leaving(q) || q.pc.Look? || q.pc.Write?)
    && Stays(p, q) && q.mode == p.mode && q.delay == p.delay && q.lingering == p.lingering
    && q.ctx == p.ctx && q.snapshot == p.snapshot
  }

  /** A pass that leaves while at its tasks reports Ready iff it is through with them and all three objects are. */
  predicate Concluded(q: Pass) {
    Leaving(q) ==> q.obj.status.phase == if Succeeds(q) && AllReady(q) then Ready else Progressing
  }

  /** The next task, if any, is the first of `rest`. */
  predicate Resumes(q: Pass, rest: seq<Task>) {
    q.pc.Look? ==> rest != [] && q.pc.task == rest[0] && q.pc.rest == rest[1..]
  }

  function Continue(p: Pass, rest: seq<Task>): (q: Pass)
    ensures OnPlan(p, q) && Resumes(q, rest) && !q.pc.Write? && q.got == p.got
    ensures q.version == p.version && q.fluxSecret == p.fluxSecret && q.carry == p.carry
    ensures if rest == [] then Succeeds(q) && Concluded(q) else q.pc.Look?
  {
    hide Agrees, SaysReady;
    if rest == [] then Conclude(p) else p.(pc := Look(rest[0], rest[1..]))
  }

  lemma PlanIsNotEmpty(k: Key, v: KroVersion, ctx: ClusterContext)
    ensures Plan(k, v, ctx) != []
  {
  }

  function BeginCreate(p: Pass): (q: Pass)
    ensures OnPlan(p, q) && Resumes(q, Plan(p.key, q.version, p.ctx)) && !q.pc.Write? && q.got == p.got
    ensures if Versions.Resolve(p.config, p.obj.version).Success? then q.pc.Look?
      else Succeeds(q) && ResultOf(q).requeue == Poll(p)
    ensures q.pc.Look? ==> Versions.Resolve(p.config, p.obj.version) == Success(q.version)
  {
    match Versions.Resolve(p.config, p.obj.version)
    case Failure(e) =>
      // invalid user input: reported, not retried
      Return(p.(obj := MarkProgressing(p.obj, p.now, RECONCILE_ERROR, Versions.Describe(e))), 0)
    case Success(v) =>
      PlanIsNotEmpty(p.key, v, p.ctx);
      Continue(p.(version := v), Plan(p.key, v, p.ctx))
  }

  /** The data replicateMCPKubeconfig copies: only the kubeconfig, as an opaque secret. */
  function Projected(s: Secret): Secret
    requires KUBECONFIG_KEY in s.data
  {
    Secret("Opaque", map[KUBECONFIG_KEY := s.data[KUBECONFIG_KEY]])
  }

  /** The conditions a Flux call returns are kept for the report; the plan stays the same. */
  predicate Records(p: Pass, q: Pass, task: Task, a: Answer) {
    && (q.got == p.got || (task.PutFlux? && a.GotFlux? && q.got == p.got[task.which := a.flux.conditions]))
    && (q.pc.Write? ==> q.got == p.got)
    && (Succeeds(q) && task.PutFlux? ==> task.which in q.got)
    && q.version == p.version && (q.fluxSecret == p.fluxSecret || task.ReadWorkloadRequest?)
    && (q.carry == p.carry || task.ReadSecret? || task.ReadKubeconfig?)
  }

  /** Tasks done by CreateOrUpdate calls: get, and write if something is to change. */
  predicate Puts(task: Task) { task.PutSecret? || task.PutNamespace? || task.PutFlux? }

  /** What a plain read puts into a register, or why it ends the pass. */
  function Fill(p: Pass, task: Task, a: Answer): (r: Result<Pass, string>)
    requires !Puts(task)
    ensures r.Success? ==>
      r.value == p.(carry := r.value.carry, fluxSecret := r.value.fluxSecret)
      && (r.value.fluxSecret == p.fluxSecret || task.ReadWorkloadRequest?)
      && (r.value.carry == p.carry || task.ReadSecret? || task.ReadKubeconfig?)
  {
    match task
    case ReadKubeconfig(_) =>
      if a.GotSecret? && KUBECONFIG_KEY in a.secret.data then Success(p.(carry := Projected(a.secret)))
      else if a.GotSecret? then Failure("MCP kubeconfig secret does not contain the kubeconfig key")
      else Failure(ErrorOf(a))
    case ReadWorkloadRequest =>
      if a.GotRequest? && a.request.secretRef.Some? then Success(p.(fluxSecret := a.request.secretRef.value))
      else Failure(ErrorOf(a))
    case Abort(e) => Failure(e)
    case _ => if a.GotSecret? then Success(p.(carry := a.secret)) else Failure(ErrorOf(a))
  }

  /** The plain reads of the plan fill a register; a failing local check ends the pass. */
  function AfterRead(p: Pass, task: Task, rest: seq<Task>, a: Answer): (q: Pass)
    requires !Puts(task)
    ensures OnPlan(p, q) && Resumes(q, rest) && !q.pc.Write?
    ensures Records(p, q, task, a) && (Succeeds(q) ==> rest == []) && Concluded(q)
  {
    hide Fill, Agrees, AllReady;
    match Fill(p, task, a)
    case Success(filled) => Continue(filled, rest)
    case Failure(e) => FailProgressing(p, e)
  }

  /** An object is written iff it is missing or differs, as of the version that was read. */
  predicate Peeks(p: Pass, q: Pass, which: Which, a: Answer) {
    && (q.pc.Write? <==> a.NotFound? || (a.GotFlux? && a.flux.spec != Desired(p, which)))
    && (q.pc.Write? ==> q.pc.seen == if a.GotFlux? then Some(a.flux.rv) else None)
    && (a.GotFlux? && !q.pc.Write? ==> which in q.got && q.got[which] == a.flux.conditions)
    && (Fails(q) <==> !a.NotFound? && !a.GotFlux?)
  }

  /** The Get of a CreateOrUpdate: a write follows only if something is to change. */
  function AfterPeekFlux(p: Pass, which: Which, rest: seq<Task>, a: Answer): (q: Pass)
    ensures OnPlan(p, q) && Resumes(q, rest)
    ensures q.pc.Write? ==> q.pc.task == PutFlux(which) && q.pc.rest == rest
    ensures Records(p, q, PutFlux(which), a) && (Succeeds(q) ==> rest == [])
    ensures Concluded(q) && Peeks(p, q, which, a)
  {
    hide Agrees, AllReady, Continue, FailProgressing, Desired;
    if a.NotFound? || (a.GotFlux? && a.flux.spec != Desired(p, which)) then
      p.(pc := Write(PutFlux(which), rest, if a.GotFlux? then Some(a.flux.rv) else None))
    else if a.GotFlux? then Continue(p.(got := p.got[which := a.flux.conditions]), rest)
    else FailProgressing(p, ErrorOf(a))
  }

  function AfterPeek(p: Pass, task: Task, rest: seq<Task>, a: Answer): (q: Pass)
    ensures OnPlan(p, q) && Resumes(q, rest)
    ensures q.pc.Write? ==> q.pc.task == task && q.pc.rest == rest
    ensures Records(p, q, task, a) && (Succeeds(q) ==> rest == []) && Concluded(q)
  {
    hide Agrees, AllReady, Marked;
    if a.NotFound? || (task.PutSecret? && a.GotSecret? && a.secret != p.carry) then p.(pc := Write(task, rest, None))
    else if (task.PutNamespace? && a.Ok?) || (task.PutSecret? && a.GotSecret?) then Continue(p, rest)
    else FailProgressing(p, ErrorOf(a))
  }

  function AfterLook(p: Pass, task: Task, rest: seq<Task>, a: Answer): (q: Pass)
    ensures OnPlan(p, q) && Resumes(q, rest)
    ensures q.pc.Write? ==> q.pc.task == task && q.pc.rest == rest && Puts(task)
    ensures Records(p, q, task, a) && (Succeeds(q) ==> rest == [])
    ensures Concluded(q) && (task.PutFlux? ==> Peeks(p, q, task.which, a))
  {
    hide Agrees, AllReady;
    if task.PutFlux? then AfterPeekFlux(p, task.which, rest, a)
    else if Puts(task) then AfterPeek(p, task, rest, a)
    else AfterRead(p, task, rest, a)
  }

  /** The write was carried out: a Flux write returns the object. */
  predicate Answers(task: Task, a: Answer) { if task.PutFlux? then a.GotFlux? else a.Ok? }

  function AfterWrite(p: Pass, task: Task, rest: seq<Task>, a: Answer): (q: Pass)
    ensures OnPlan(p, q) && Resumes(q, rest) && !q.pc.Write?
    ensures Records(p, q, task, a) && (Succeeds(q) ==> rest == [])
    ensures Concluded(q) && (Fails(q) <==> !Answers(task, a))
    ensures task.PutFlux? && a.GotFlux? ==> task.which in q.got && q.got[task.which] == a.flux.conditions
  {
    hide Agrees, AllReady, Marked;
    if task.PutFlux? && a.GotFlux? then Continue(p.(got := p.got[task.which := a.flux.conditions]), rest)
    else if !task.PutFlux? && a.Ok? then Continue(p, rest)
    else FailProgressing(p, ErrorOf(a))
  }

  // ---------- KroReconciler.Delete ----------

  function Report(p: Pass, rs: seq<ManagedResource>): Pass {
    p.(obj := p.obj.(status := p.obj.status.(resources := rs)))
  }

  function BeginTeardown(p: Pass): (q: Pass)
    ensures q == p.(lingering := false, pc := DeleteObject(0, DeleteTargets(Tenant(p.key))[0]),
                    obj := p.obj.(status := p.obj.status.(resources := q.obj.status.resources)))
  {
    Report(p, ManagedResources(Tenant(p.key), Terminating))
      .(lingering := false, pc := DeleteObject(0, DeleteTargets(Tenant(p.key))[0]))
  }

  function AfterResolveNamespace(p: Pass, a: Answer): (q: Pass)
    ensures Stays(p, q) && q.got == p.got && q.mode == p.mode && q.ctx == p.ctx && q.delay == p.delay
    ensures
      || Leaving(q)
      || (p.mode == Creating && q.pc.Look?)
      || (p.mode != Creating && p.ctx.mcp && q.pc.CountRGDs?)
      || (p.mode != Creating && !p.ctx.mcp && q.pc.DeleteObject? && q.pc.i == 0 && !q.lingering)
    ensures Succeeds(q) ==> p.mode == Creating && q.obj.status.observedGeneration == q.obj.generation
    ensures Shows(q, if a.Ok? && Leaving(q) then Progressing else p.obj.status.phase)
    ensures Fails(q) <==> !a.Ok?
  {
    if !a.Ok? then Fail(p)
    else if p.mode == Creating then BeginCreate(p)
    else if p.ctx.mcp then p.(pc := CountRGDs)
    else BeginTeardown(p)
  }

  const BLOCKED_MESSAGE :=
    "deletion blocked: waiting for kro ResourceGraphDefinition(s) to be removed from the control plane"

  /** The guard: teardown waits until the control plane lists no ResourceGraphDefinition. */
  function AfterCountRGDs(p: Pass, a: Answer): (q: Pass)
    ensures Stays(p, q) && q.got == p.got && q.mode == p.mode
    ensures if NoneListed(a) then q.pc.DeleteObject? && q.pc.i == 0 && !q.lingering else Leaving(q)
    ensures Shows(q, if Leaving(q) then Terminating else p.obj.status.phase)
    ensures Succeeds(q) ==> a.Counted? && a.n > 0
  {
    hide Agrees;
    match a
    case Counted(n) =>
      if n > 0 then
        var q := p.(obj := MarkTerminatingWithReason(p.obj, p.now, "Terminating", BLOCKED_MESSAGE));
        Return(Report(q, ManagedResources(Tenant(p.key), Terminating)), 10)
      else BeginTeardown(p)
    case NoSuchKind => BeginTeardown(p)
    case NotFound => BeginTeardown(p)
    case _ => FailTerminating(p, ErrorOf(a))
  }

  function AfterDeleteObject(p: Pass, i: nat, ref: FluxRef, a: Answer): (q: Pass)
    ensures Stays(p, q) && q.got == p.got && q.mode == p.mode && q.lingering == p.lingering
    ensures if a.Ok? || a.NotFound? then q.pc == ConfirmGone(i, ref) && q.obj == p.obj
      else Fails(q) && Shows(q, Terminating)
  {
    if a.Ok? || a.NotFound? then p.(pc := ConfirmGone(i, ref)) else FailTerminating(p, ErrorOf(a))
  }

  /** The end of Delete: something lingers, or all objects are gone and access can be given up. */
  function FinishTeardown(p: Pass): (q: Pass)
    ensures Stays(p, q) && q.got == p.got && q.mode == p.mode && q.lingering == p.lingering
    ensures if p.lingering then Leaving(q) && q.obj == p.obj else q.pc.RevokeAccess? && Shows(q, Ready)
    ensures q.snapshot == p.snapshot
  {
    if p.lingering then Return(p, 10)
    else
      var cleared := Report(p, []);
      cleared.(obj := MarkReady(cleared.obj, p.now), pc := RevokeAccess)
  }

  /** Only NotFound confirms that the object is gone. */
  function AfterConfirmGone(p: Pass, i: nat, a: Answer): (q: Pass)
    ensures Stays(p, q) && q.got == p.got && q.mode == p.mode && q.lingering == (p.lingering || !a.NotFound?)
    ensures i + 1 < 3 ==> q.pc.DeleteObject? && q.pc.i == i + 1
    ensures i + 1 >= 3 ==> if q.lingering then Leaving(q) else q.pc.RevokeAccess?
    ensures if q.pc.RevokeAccess? then Shows(q, Ready) else q.obj == p.obj
  {
    var q := if a.NotFound? then p else p.(lingering := true);
    if i + 1 < 3 then q.(pc := DeleteObject(i + 1, DeleteTargets(Tenant(p.key))[i + 1]))
    else FinishTeardown(q)
  }

  // ---------- one step ----------

  predicate BeforeLoad(pc: Pc) { pc.GetKro? || pc.PatchAnnotation? || pc.LoadConfig? }

  /** The calls up to cluster access. */
  predicate Beginning(pc: Pc) {
    pc.GetKro? || pc.PatchAnnotation? || pc.LoadConfig? || pc.GetForFinalizer? || pc.RecreateKro? || pc.UpdateFinalizer?
      || pc.CheckRequest? || pc.ReconcileAccess? || pc.GetCluster? || pc.GetRequest?
  }

  /** How a pass moves on from its calls: to its config, with it, and out. */
  predicate MovesOn(p: Pass, a: Answer, q: Pass) {
    && Keeps(p, q)
    && (!AtTask(p) ==> q.got == p.got && !q.pc.Write? && (q.pc.Look? ==> p.pc.ResolveNamespace?))
    && (if p.pc.GetKro? || p.pc.PatchAnnotation? then
          && q.mode == p.mode && q.config == p.config && q.epoch == p.epoch
          && (q.pc.Done? || BeforeLoad(q.pc))
          && (q.pc.LoadConfig? ==> a == GotKro(q.obj) && q.snapshot == q.obj.status)
        else
          !BeforeLoad(q.pc) && q.snapshot == p.snapshot)
    && (p.pc.LoadConfig? && Leaving(q) ==> WritesBack(q) && Fails(q))
    && (!BeforeLoad(p.pc) ==> q.mode == p.mode && q.config == p.config && q.epoch == p.epoch)
    && (!BeforeLoad(p.pc) && !Leaving(p) ==> Stays(p, q))
    && (Leaving(p) ==> q.pc.Done? && q == p.(pc := q.pc) && (Succeeds(q) ==> ResultOf(q) == ResultOf(p)))
  }

  /** What the code does with the answer to the pending call, up to its next call. */
  function Step(p: Pass, a: Answer): (q: Pass)
    ensures MovesOn(p, a, q)
  {
    hide AfterGetKro, AfterPatchAnnotation, AfterLoadConfig, AfterGetForFinalizer, AfterUpdateFinalizer,
      AfterCheckRequest, AfterReconcileAccess, AfterGetCluster, AfterGetRequest, AfterResolveNamespace,
      AfterLook, AfterWrite, AfterCountRGDs, AfterDeleteObject, AfterConfirmGone, AfterRevokeAccess,
      AfterRemoveFinalizer, AfterPatchStatus, FailProgressing;
    match p.pc
    case GetKro => AfterGetKro(p, a)
    case PatchAnnotation => AfterPatchAnnotation(p, a)
    case LoadConfig => AfterLoadConfig(p, a)
    case GetForFinalizer => AfterGetForFinalizer(p, a)
    case RecreateKro => FailProgressing(p, "failed to add finalizer")
    case UpdateFinalizer => AfterUpdateFinalizer(p, a)
    case CheckRequest(c) => AfterCheckRequest(p, c, a)
    case ReconcileAccess => AfterReconcileAccess(p, a)
    case GetCluster(c) => AfterGetCluster(p, c, a)
    case GetRequest(c) => AfterGetRequest(p, c, a)
    case ResolveNamespace => AfterResolveNamespace(p, a)
    case Look(task, rest) => AfterLook(p, task, rest, a)
    case Write(task, rest, _) => AfterWrite(p, task, rest, a)
    case CountRGDs => AfterCountRGDs(p, a)
    case DeleteObject(i, ref) => AfterDeleteObject(p, i, ref, a)
    case ConfirmGone(i, _) => AfterConfirmGone(p, i, a)
    case RevokeAccess => AfterRevokeAccess(p, a)
    case RemoveFinalizer => AfterRemoveFinalizer(p, a)
    case PatchStatus(r) => AfterPatchStatus(p, r, a)
    case Done(_) => p
  }
}
