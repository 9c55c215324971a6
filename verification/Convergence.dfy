/**
 A create pass that ends without error leaves the installation that its inputs describe, after any
 history of aborted passes under any earlier configs, and repeating it writes nothing.
 */
module Convergence {
  import opened Wrappers
  import opened Resources
  import opened Flux
  import opened Passes
  import opened Worlds
  import opened Operator
  import opened Traces
  import opened Safety
  import opened Integrity
  import Reports
  import Statuses
  import Versions

  /** What an installation depends on: the resolved version and the names of the two access secrets. */
  datatype Inputs = Inputs(version: KroVersion, mcpSecret: string, workloadSecret: string)

  /** The specs of the three objects, as a function of the tenant and the inputs alone. */
  function Target(k: Key, i: Inputs, which: Which): FluxSpec {
    match which
    case Oci => OciRepositorySpec(i.version)
    case Main => MainReleaseSpec(Tenant(k), i.version.helmValues, i.workloadSecret)
    case Crds => CrdsReleaseSpec(Tenant(k), i.mcpSecret)
  }

  ghost predicate Has(w: World, k: Key, i: Inputs, which: Which) {
    RefOf(which, Tenant(k)) in w.flux && w.flux[RefOf(which, Tenant(k))].spec == Target(k, i, which)
  }

  ghost predicate Installed(w: World, k: Key, i: Inputs) {
    Has(w, k, i, Oci) && Has(w, k, i, Main) && Has(w, k, i, Crds)
  }

  /** What is installed, in the terms of the version entry and the two secrets. */
  ghost predicate IsInstallation(w: World, k: Key, i: Inputs) {
    var oci, main, crds := FluxRef(OCIRepository, "kro-oci-repository", Tenant(k)),
      FluxRef(HelmRelease, "kro-helm-release", Tenant(k)), FluxRef(HelmRelease, "kro-mcp-crds-helm-release", Tenant(k));
    && oci in w.flux && main in w.flux && crds in w.flux
    && IsSourceOf(w.flux[oci].spec, i.version)
    && IsMain(w.flux[main].spec, Tenant(k)) && IsCrds(w.flux[crds].spec, Tenant(k))
    && w.flux[main].spec.values == i.version.helmValues
    && w.flux[main].spec.kubeconfigSecret == i.workloadSecret
    && w.flux[crds].spec.kubeconfigSecret == i.mcpSecret
  }

  lemma InstalledIsInstallation(w: World, k: Key, i: Inputs)
    requires Installed(w, k, i)
    ensures IsInstallation(w, k, i)
  {
    hide IsSourceOf, IsMain, IsCrds;
    SpecsAreAsDescribed(i.version, Tenant(k), i.version.helmValues, i.workloadSecret);
    SpecsAreAsDescribed(i.version, Tenant(k), None, i.mcpSecret);
  }

  function InputsOf(p: Pass): Inputs { Inputs(p.version, p.ctx.mcpSecret, p.fluxSecret) }

  // ---------- passes that get through the plan ----------

  predicate Offered(p: Pass) { Versions.Resolve(p.config, p.obj.version).Success? }

  /** Once the domain logic was entered, only the end of the plan ends a create pass without error. */
  ghost predicate Finishing(p: Pass, entered: bool) {
    && OnCourse(p) && (AtTask(p) ==> p.mode == Creating)
    && ((Reports.Entered(p.pc) && !AtTask(p) && !Leaving(p)) || p.pc.CheckRequest? ==> p.mode != Creating)
    && (!Reports.Entered(p.pc) ==> !entered)
    && (Succeeds(p) && p.mode == Creating && entered && Offered(p) ==> Main in p.got)
  }

  ghost predicate FinishingAfter(p: Pass, entered: bool, q: Pass) {
    Finishing(q, entered || p.pc.ResolveNamespace?)
  }

  lemma AdvancingStaysOnCourse(p: Pass, q: Pass)
    requires AtTask(p) && OnCourse(p) && PlanOf(q) == PlanOf(p) && Resumes(q, p.pc.rest)
    requires q.pc.Write? ==> q.pc.task == p.pc.task && q.pc.rest == p.pc.rest
    ensures OnCourse(q)
  {
    hide PlanOf;
    TaskIsAtPosition(p);
    var n := Position(p);
    if q.pc.Look? {
      assert PlanOf(q)[n + 1..] == [q.pc.task] + q.pc.rest;
    }
  }

  lemma TasksFinish(p: Pass, e: bool, a: Answer)
    requires Finishing(p, e) && AtTask(p)
    ensures FinishingAfter(p, e, Passes.Step(p, a))
  {
    hide AfterLook, AfterWrite, Plan, Statuses.Agrees, AllReady, OnCourse;
    TaskIsAtPosition(p);
    AdvancingStaysOnCourse(p, Passes.Step(p, a));
  }

  lemma BeginningFinishes(p: Pass, e: bool, a: Answer)
    requires Finishing(p, e) && p.pc.ResolveNamespace?
    ensures FinishingAfter(p, e, AfterResolveNamespace(p, a))
  {
    hide BeginTeardown, BeginCreate, Fail, Plan, Statuses.Agrees, AllReady, Versions.Resolve;
    var q := AfterResolveNamespace(p, a);
    if q.pc.Look? {
      assert PlanOf(q)[0..] == PlanOf(q) == [q.pc.task] + q.pc.rest;
    }
  }

  lemma FirstCallsFinish(p: Pass, e: bool, a: Answer)
    requires Finishing(p, e)
    requires p.pc.GetKro? || p.pc.PatchAnnotation? || p.pc.LoadConfig? || p.pc.GetForFinalizer? || p.pc.RecreateKro?
      || p.pc.UpdateFinalizer?
    ensures FinishingAfter(p, e, Passes.Step(p, a))
  {
    hide AfterGetKro, AfterPatchAnnotation, AfterLoadConfig, AfterGetForFinalizer, AfterUpdateFinalizer,
      FailProgressing, PlanOf, Shows;
    match p.pc
    case GetKro =>
    case PatchAnnotation =>
    case LoadConfig =>
    case GetForFinalizer =>
    case RecreateKro =>
    case UpdateFinalizer =>
  }

  lemma AccessCallsFinish(p: Pass, e: bool, a: Answer)
    requires Finishing(p, e)
    requires p.pc.CheckRequest? || p.pc.ReconcileAccess? || p.pc.GetCluster? || p.pc.GetRequest?
    ensures FinishingAfter(p, e, Passes.Step(p, a))
  {
    hide AfterCheckRequest, AfterReconcileAccess, AfterGetCluster, AfterGetRequest, PlanOf, Accesses, Shows;
    match p.pc
    case CheckRequest(_) =>
    case ReconcileAccess =>
    case GetCluster(_) =>
    case GetRequest(_) =>
  }

  lemma LastCallsFinish(p: Pass, e: bool, a: Answer)
    requires Finishing(p, e) && !AtTask(p) && !p.pc.ResolveNamespace?
    requires p.pc.CountRGDs? || p.pc.DeleteObject? || p.pc.ConfirmGone?
      || p.pc.RevokeAccess? || p.pc.RemoveFinalizer? || p.pc.PatchStatus? || p.pc.Done?
    ensures FinishingAfter(p, e, Passes.Step(p, a))
  {
    hide AfterGetKro, AfterPatchAnnotation, AfterLoadConfig, AfterGetForFinalizer, AfterUpdateFinalizer,
      AfterCheckRequest, AfterReconcileAccess, AfterGetCluster, AfterGetRequest, AfterResolveNamespace,
      AfterLook, AfterWrite, AfterCountRGDs, AfterDeleteObject, AfterConfirmGone, AfterRevokeAccess,
      AfterRemoveFinalizer, AfterPatchStatus, FailProgressing;
    hide PlanOf;
    match p.pc
    case CountRGDs =>
    case DeleteObject(_, _) =>
    case ConfirmGone(_, _) =>
    case RevokeAccess =>
    case RemoveFinalizer =>
    case PatchStatus(_) =>
    case Done(_) =>
  }

  lemma OthersFinish(p: Pass, e: bool, a: Answer)
    requires Finishing(p, e) && !AtTask(p) && !p.pc.ResolveNamespace?
    ensures FinishingAfter(p, e, Passes.Step(p, a))
  {
    hide Passes.Step;
    if p.pc.CheckRequest? || p.pc.ReconcileAccess? || p.pc.GetCluster? || p.pc.GetRequest? {
      AccessCallsFinish(p, e, a);
    } else if Beginning(p.pc) {
      FirstCallsFinish(p, e, a);
    } else {
      LastCallsFinish(p, e, a);
    }
  }

  lemma CallFinishes(p: Pass, t: seq<Call>, a: Answer)
    requires Finishing(p, Reports.HasEntered(t))
    ensures Finishing(Passes.Step(p, a), Reports.HasEntered(t + [Call(p.pc, a)]))
  {
    hide Finishing, Reports.HasEntered;
    Reports.AppendKeepsEntered(t, Call(p.pc, a));
    if AtTask(p) {
      hide Passes.Step;
      TasksFinish(p, Reports.HasEntered(t), a);
    } else if p.pc.ResolveNamespace? {
      BeginningFinishes(p, Reports.HasEntered(t), a);
    } else {
      hide Passes.Step;
      OthersFinish(p, Reports.HasEntered(t), a);
    }
  }

  lemma FreshPassFinishes(p: Pass)
    requires p == Fresh(p)
    ensures Finishing(p, Reports.HasEntered([]))
  {
  }

  lemma {:induction false} TracedFinishes(p: Pass, t: seq<Call>)
    requires Traced(p, t)
    ensures Finishing(p, Reports.HasEntered(t))
    decreases |t|
  {
    hide Passes.Step, Finishing, Reports.HasEntered;
    if t == [] {
      FreshPassFinishes(p);
    } else {
      var last := |t| - 1;
      var before := After(Fresh(p), t[..last]);
      TracedPrefix(p, t);
      TracedFinishes(before, t[..last]);
      CallFinishes(before, t[..last], t[last].answer);
      assert t == t[..last] + [t[last]];
    }
  }

  // ---------- where the inputs come from ----------

  /** The control plane's access request, as this pass read it, names the secret. */
  ghost predicate NamedByMCP(t: seq<Call>, name: string) { exists c <- t :: NamesMCP(c, name) }

  ghost predicate NamesMCP(c: Call, name: string) {
    && c.pc == GetRequest(MCP) && c.answer.GotRequest?
    && name == (match c.answer.request.secretRef case None => "" case Some(n) => n)
  }

  /** The workload cluster's access request does. */
  ghost predicate NamedByWorkload(t: seq<Call>, name: string) { exists c <- t :: NamesWorkload(c, name) }

  ghost predicate NamesWorkload(c: Call, name: string) {
    && c.pc.Look? && c.pc.task == ReadWorkloadRequest
    && c.answer.GotRequest? && c.answer.request.secretRef == Some(name)
  }

  predicate PastMCP(p: Pass) { p.pc == GetCluster(Workload) || p.pc == GetRequest(Workload)
    || p.pc.ResolveNamespace? || AtTask(p) }

  ghost predicate Named(p: Pass, t: seq<Call>) {
    && ((PastMCP(p) && p.mode == Creating) || Main in p.got ==> NamedByMCP(t, p.ctx.mcpSecret))
    && ((AtTask(p) && p.pc.task == PutFlux(Main)) || Main in p.got ==> NamedByWorkload(t, p.fluxSecret))
    && (Main in p.got ==> Leaving(p)) && (AtTask(p) ==> p.mode == Creating) && (p.pc.Write? ==> Puts(p.pc.task))
  }

  lemma AppendKeepsNames(t: seq<Call>, c: Call, name: string)
    ensures NamedByMCP(t, name) || NamesMCP(c, name) ==> NamedByMCP(t + [c], name)
    ensures NamedByWorkload(t, name) || NamesWorkload(c, name) ==> NamedByWorkload(t + [c], name)
  {
    assert forall d <- t :: d in t + [c];
    assert c in t + [c];
  }

  /** The workload access request is read right before the main release is written. */
  lemma MainFollowsRequest(p: Pass, q: Pass)
    requires AtTask(p) && OnCourse(p) && q.pc.Look? && Resumes(q, p.pc.rest)
    ensures q.pc.task == PutFlux(Main) ==> p.pc.task == ReadWorkloadRequest
  {
    TaskIsAtPosition(p);
    MainComesLast(p.key, p.version, p.ctx);
    ReadsRequestBeforeMain(p.key, p.version, p.ctx);
    hide Plan, Preparations;
    var plan, n := PlanOf(p), Position(p);
    if q.pc.task == PutFlux(Main) {
      assert plan[n + 1] == plan[n + 1..][0] == PutFlux(Main);
      assert forall i :: 0 <= i < |plan| - 1 ==> plan[i] == Preparations(p.key, p.version, p.ctx)[i];
    }
  }

  lemma ReadsRequestBeforeMain(k: Key, v: KroVersion, ctx: ClusterContext)
    ensures |Plan(k, v, ctx)| >= 2 && Plan(k, v, ctx)[|Plan(k, v, ctx)| - 2] == ReadWorkloadRequest
  {
    hide ChartSecretTasks, ImageSecretTasks, KubeconfigTasks;
    var plan := Plan(k, v, ctx);
    assert plan[|plan| - 3..] == RELEASES;
    assert plan[|plan| - 2] == RELEASES[1];
  }

  lemma TasksAreNamed(p: Pass, t: seq<Call>, a: Answer)
    requires Named(p, t) && AtTask(p) && OnCourse(p)
    ensures Named(Passes.Step(p, a), t + [Call(p.pc, a)])
  {
    hide AfterLook, AfterWrite, Plan, Statuses.Agrees, AllReady, OnCourse, NamedByMCP, NamedByWorkload;
    var q := Passes.Step(p, a);
    AppendKeepsNames(t, Call(p.pc, a), p.ctx.mcpSecret);
    AppendKeepsNames(t, Call(p.pc, a), q.fluxSecret);
    TaskIsAtPosition(p);
    if q.pc.Look? {
      MainFollowsRequest(p, q);
      ReadingNames(p, a);
    }
  }

  lemma ReadingNames(p: Pass, a: Answer)
    requires AtTask(p) && (p.pc.Write? ==> Puts(p.pc.task))
    ensures p.pc.task == ReadWorkloadRequest && Passes.Step(p, a).pc.Look? ==>
      NamesWorkload(Call(p.pc, a), Passes.Step(p, a).fluxSecret)
  {
    hide Continue, FailProgressing, AfterWrite;
  }

  lemma AccessIsNamed(p: Pass, t: seq<Call>, a: Answer)
    requires Named(p, t) && (p.pc.GetRequest? || p.pc.GetCluster?)
    ensures Named(Passes.Step(p, a), t + [Call(p.pc, a)])
  {
    hide FailClusters, Return, NamedByMCP, NamedByWorkload, Statuses.MarkProgressing, Statuses.MarkTerminating,
      Statuses.Agrees;
    var q := Passes.Step(p, a);
    AppendKeepsNames(t, Call(p.pc, a), q.ctx.mcpSecret);
  }

  lemma BeginningIsNamed(p: Pass, t: seq<Call>, a: Answer)
    requires Named(p, t) && p.pc.ResolveNamespace?
    ensures Named(AfterResolveNamespace(p, a), t + [Call(p.pc, a)])
  {
    hide BeginTeardown, BeginCreate, Fail, Plan, Statuses.Agrees, AllReady, NamedByMCP, NamedByWorkload;
    AppendKeepsNames(t, Call(p.pc, a), p.ctx.mcpSecret);
    var q := AfterResolveNamespace(p, a);
    if q.pc.Look? {
      MainComesLast(q.key, q.version, q.ctx);
      assert q.pc.task == Plan(q.key, q.version, q.ctx)[0] == Preparations(q.key, q.version, q.ctx)[0];
    }
  }

  lemma FirstCallsAreNamed(p: Pass, t: seq<Call>, a: Answer)
    requires Named(p, t) && Beginning(p.pc) && !p.pc.GetRequest? && !p.pc.GetCluster?
    ensures Named(Passes.Step(p, a), t + [Call(p.pc, a)])
  {
    hide AfterGetKro, AfterPatchAnnotation, AfterLoadConfig, AfterGetForFinalizer, AfterUpdateFinalizer,
      AfterCheckRequest, AfterReconcileAccess, FailProgressing, NamedByMCP, NamedByWorkload, Statuses.Agrees,
      MovesOn, Accesses, Shows;
    AppendKeepsNames(t, Call(p.pc, a), p.ctx.mcpSecret);
    AppendKeepsNames(t, Call(p.pc, a), p.fluxSecret);
    match p.pc
    case GetKro =>
    case PatchAnnotation =>
    case LoadConfig =>
    case GetForFinalizer =>
    case RecreateKro =>
    case UpdateFinalizer =>
    case CheckRequest(_) =>
    case ReconcileAccess =>
  }

  lemma LastCallsAreNamed(p: Pass, t: seq<Call>, a: Answer)
    requires Named(p, t) && !AtTask(p) && !Beginning(p.pc) && !p.pc.ResolveNamespace?
    ensures Named(Passes.Step(p, a), t + [Call(p.pc, a)])
  {
    hide AfterCountRGDs, AfterDeleteObject, AfterConfirmGone, AfterRevokeAccess, AfterRemoveFinalizer,
      NamedByMCP, NamedByWorkload, Statuses.Agrees, MovesOn, Shows;
    AppendKeepsNames(t, Call(p.pc, a), p.ctx.mcpSecret);
    AppendKeepsNames(t, Call(p.pc, a), p.fluxSecret);
    match p.pc
    case CountRGDs =>
    case DeleteObject(_, _) =>
    case ConfirmGone(_, _) =>
    case RevokeAccess =>
    case RemoveFinalizer =>
    case PatchStatus(_) =>
    case Done(_) =>
  }

  lemma CallIsNamed(p: Pass, t: seq<Call>, a: Answer)
    requires Named(p, t) && OnCourse(p)
    ensures Named(Passes.Step(p, a), t + [Call(p.pc, a)])
  {
    hide Named, OnCourse;
    if AtTask(p) {
      hide Passes.Step;
      TasksAreNamed(p, t, a);
    } else if p.pc.GetRequest? || p.pc.GetCluster? {
      hide Passes.Step;
      AccessIsNamed(p, t, a);
    } else if p.pc.ResolveNamespace? {
      BeginningIsNamed(p, t, a);
    } else {
      hide Passes.Step, Beginning;
      if Beginning(p.pc) { FirstCallsAreNamed(p, t, a); } else { LastCallsAreNamed(p, t, a); }
    }
  }

  lemma FreshIsNamed(p: Pass)
    requires p == Fresh(p)
    ensures Named(p, [])
  {
  }

  lemma {:induction false} TracedIsNamed(p: Pass, t: seq<Call>)
    requires Traced(p, t)
    ensures Named(p, t)
    decreases |t|
  {
    hide Passes.Step, Named, OnCourse;
    if t == [] {
      FreshIsNamed(p);
    } else {
      var last := |t| - 1;
      var before := After(Fresh(p), t[..last]);
      TracedPrefix(p, t);
      TracedIsNamed(before, t[..last]);
      TracedFinishes(before, t[..last]);
      CallIsNamed(before, t[..last], t[last].answer);
      assert t == t[..last] + [t[last]];
    }
  }

  lemma WholePlanInstalls(w: World, p: Pass)
    requires DoneUpTo(w, p, |PlanOf(p)|)
    ensures Installed(w, p.key, InputsOf(p))
  {
    MainComesLast(p.key, p.version, p.ctx);
    hide Plan, Preparations;
    forall which: Which ensures Accomplished(w, p, PutFlux(which)) {
      var plan := PlanOf(p);
      assert plan[|plan| - 1] == PutFlux(Main);
      assert forall t <- Preparations(p.key, p.version, p.ctx) :: t in plan;
      match which case Oci => case Main => case Crds =>
      var i :| 0 <= i < |plan| && plan[i] == PutFlux(which);
    }
    assert Accomplished(w, p, PutFlux(Oci)) && Accomplished(w, p, PutFlux(Main)) && Accomplished(w, p, PutFlux(Crds));
  }

  /**
   Failure confluence. In every run without tampering, whatever passes were aborted at whatever calls
   under whatever configs before: when a create pass that reached the domain logic, for a version on
   offer, is about to end without error, the three Flux specs are those its inputs describe, and the
   version is the one its config resolves the Kro's request to.
   */
  lemma FailureConfluence(r: Run, i: nat, k: Key)
    requires ValidRun(r) && Untampered(r) && i < |r.states|
    requires k in r.states[i].passes && Reports.HasEntered(TraceOf(r.states[i], k))
    requires var p := r.states[i].passes[k]; p.mode == Creating && Succeeds(p) && Offered(p)
    ensures var s := r.states[i]; var p := s.passes[k];
      && Installed(s.world, k, InputsOf(p)) && IsInstallation(s.world, k, InputsOf(p))
      && Versions.Resolve(p.config, p.obj.version) == Success(p.version)
      && p.config.Some? && p.version in p.config.value.versions && p.version.version == p.obj.version
      && NamedByMCP(TraceOf(s, k), p.ctx.mcpSecret) && NamedByWorkload(TraceOf(s, k), p.fluxSecret)
  {
    hide ValidRun, Untampered, Installed, Traced, StoreIntact, DoneUpTo, PlanOf, Reports.HasEntered, NamedByMCP,
      NamedByWorkload, IsInstallation;
    var s := r.states[i];
    RunStatesAreReachable(r, i);
    ReachableIsTraced(s, k);
    TracedFinishes(s.passes[k], TraceOf(s, k));
    TracedIsNamed(s.passes[k], TraceOf(s, k));
    RunsAreIntact(r, i, k);
    WholePlanInstalls(s.world, s.passes[k]);
    InstalledIsInstallation(s.world, k, InputsOf(s.passes[k]));
  }

  // ---------- repeating it ----------

  predicate WritesFlux(p: Pass) { p.pc.Write? && p.pc.task.PutFlux? }

  /** At its tasks, the pass has the given inputs (the workload secret once it has been read). */
  ghost predicate Uses(p: Pass, i: Inputs) {
    AtTask(p) ==>
      p.version == i.version && p.ctx.mcpSecret == i.mcpSecret
        && (p.pc.task == PutFlux(Main) ==> p.fluxSecret == i.workloadSecret)
  }

  ghost predicate Steady(s: System, k: Key, i: Inputs) {
    Installed(s.world, k, i) && (k in s.passes ==> !WritesFlux(s.passes[k]))
  }

  lemma LookWritesNothing(w: World, p: Pass, i: Inputs, a: Answer)
    requires p.pc.Look? && Uses(p, i) && Installed(w, p.key, i) && (a.Failed? || LawfulLook(w, p, p.pc.task, a))
    ensures !WritesFlux(AfterLook(p, p.pc.task, p.pc.rest, a))
  {
    hide FailProgressing, Continue;
    if p.pc.task.PutFlux? {
      match p.pc.task.which case Oci => case Main => case Crds =>
    }
  }

  lemma KindKeepsInstalled(w: World, v: World, k: Key, i: Inputs)
    requires Installed(w, k, i) && NoneFading(w, k) && Kindly(w, v, k)
    ensures Installed(v, k, i)
  {
  }

  lemma OwnCallStaysSteady(w: World, p: Pass, cache: Option<ProviderConfig>, epoch: nat, a: Answer, h: Hidden,
    i: Inputs)
    requires StoreSafe(w, p.key, p.needsWorkload) && PassSafe(w, p) && !Deleted(w, p.key) && NoneFading(w, p.key)
    requires Lawful(w, p, cache, epoch, a, h) && Installed(w, p.key, i) && Uses(p, i) && !WritesFlux(p)
    ensures Installed(Effect(w, p, a, h), p.key, i) && !WritesFlux(Passes.Step(p, a))
  {
    hide StoreSafe, Installed, NoneFading, Kindly, Passes.Step, WithAccess, Installing, NoFlux, NoRequests, OwnPlan,
      GoneBefore, LawfulWrite, LawfulRevoke;
    EffectIsKind(w, p, cache, epoch, a, h);
    KindKeepsInstalled(w, Effect(w, p, a, h), p.key, i);
    StepWritesNothing(w, p, i, a);
  }

  lemma EffectIsKind(w: World, p: Pass, cache: Option<ProviderConfig>, epoch: nat, a: Answer, h: Hidden)
    requires StoreSafe(w, p.key, p.needsWorkload) && PassSafe(w, p) && !Deleted(w, p.key)
    requires Lawful(w, p, cache, epoch, a, h) && !WritesFlux(p)
    ensures Kindly(w, Effect(w, p, a, h), p.key)
  {
    hide StoreSafe, Kindly, EffectOfLook, EffectOfWrite, EffectOfDelete, LawfulWrite, LawfulLook, LawfulRevoke,
      GoneBefore, OwnPlan;
    match p.pc
    case Look(_, _) => LookIsKind(w, p, a);
    case Write(_, _, _) => SecretWritesAreKind(w, p, a);
    case DeleteObject(_, _) => DeletingMeansDeleted(w, p);
    case _ => hide PassSafe, Lawful; PlainCallsAreKind(w, p, cache, epoch, a, h);
  }

  lemma LookIsKind(w: World, p: Pass, a: Answer)
    requires p.pc.Look?
    ensures Kindly(w, EffectOfLook(w, p, p.pc.task, a), p.key)
  {
  }

  lemma DeletingMeansDeleted(w: World, p: Pass)
    requires PassSafe(w, p) && p.pc.DeleteObject?
    ensures Deleted(w, p.key)
  {
  }

  lemma FirstStepsWriteNothing(w: World, p: Pass, i: Inputs, a: Answer)
    requires p.pc.Look? ==> a.Failed? || LawfulLook(w, p, p.pc.task, a)
    requires Installed(w, p.key, i) && Uses(p, i)
    requires Beginning(p.pc) || AtTask(p)
    ensures !WritesFlux(Passes.Step(p, a))
  {
    hide AfterGetKro, AfterPatchAnnotation, AfterLoadConfig, AfterGetForFinalizer, AfterUpdateFinalizer,
      AfterCheckRequest, AfterReconcileAccess, AfterGetCluster, AfterGetRequest, AfterResolveNamespace,
      AfterLook, AfterWrite, AfterCountRGDs, AfterDeleteObject, AfterConfirmGone, AfterRevokeAccess,
      AfterRemoveFinalizer, AfterPatchStatus, FailProgressing, Installed, LawfulLook, Uses, Plan, Statuses.Agrees,
        AllReady;
    match p.pc
    case Look(_, _) => LookWritesNothing(w, p, i, a);
    case Write(_, _, _) =>
    case GetKro =>
    case PatchAnnotation =>
    case LoadConfig =>
    case GetForFinalizer =>
    case RecreateKro =>
    case UpdateFinalizer =>
    case CheckRequest(_) =>
    case ReconcileAccess =>
    case GetCluster(_) =>
    case GetRequest(_) =>
  }

  lemma LastStepsWriteNothing(w: World, p: Pass, i: Inputs, a: Answer)
    requires p.pc.Look? ==> a.Failed? || LawfulLook(w, p, p.pc.task, a)
    requires Installed(w, p.key, i) && Uses(p, i)
    requires !Beginning(p.pc) && !AtTask(p)
    ensures !WritesFlux(Passes.Step(p, a))
  {
    hide AfterGetKro, AfterPatchAnnotation, AfterLoadConfig, AfterGetForFinalizer, AfterUpdateFinalizer,
      AfterCheckRequest, AfterReconcileAccess, AfterGetCluster, AfterGetRequest, AfterResolveNamespace,
      AfterLook, AfterWrite, AfterCountRGDs, AfterDeleteObject, AfterConfirmGone, AfterRevokeAccess,
      AfterRemoveFinalizer, AfterPatchStatus, FailProgressing, Installed, LawfulLook, Uses, Plan, Statuses.Agrees,
        AllReady;
    match p.pc
    case ResolveNamespace =>
    case CountRGDs =>
    case DeleteObject(_, _) =>
    case ConfirmGone(_, _) =>
    case RevokeAccess =>
    case RemoveFinalizer =>
    case PatchStatus(_) =>
    case Done(_) =>
  }

  lemma StepWritesNothing(w: World, p: Pass, i: Inputs, a: Answer)
    requires p.pc.Look? ==> a.Failed? || LawfulLook(w, p, p.pc.task, a)
    requires Installed(w, p.key, i) && Uses(p, i)
    ensures !WritesFlux(Passes.Step(p, a))
  {
    hide Passes.Step;
    if Beginning(p.pc) || AtTask(p) {
      FirstStepsWriteNothing(w, p, i, a);
    } else {
      LastStepsWriteNothing(w, p, i, a);
    }
  }

  lemma StepStaysSteady(s: System, a: Action, k: Key, i: Inputs)
    requires Safe(s) && IntactAt(s, k) && s.config.history != [] && Enabled(s, a)
    requires a.Environment? ==> !Tampers(s.world, a.e)
    requires Steady(s, k, i) && !Deleted(s.world, k) && (k in s.passes ==> Uses(s.passes[k], i))
    ensures Steady(Apply(s, a), k, i)
  {
    hide MovesOn, Stays, Accesses;
    hide StoreSafe, PassSafe, PassIntact, Kindly, SameTenant, Effect, Act, Passes.Step, Lawful, Permitted,
      Tampers, Observe, Settle, KeepsReplicas, Installed, NoneFading, Deleted, Uses, SourceIntact, ReleaseIntact,
        Sourced;
    assert SafeAt(s, k);
    match a
    case Environment(e) =>
      EnvironmentIsKind(s.world, e, k, s.needsWorkload);
      KindKeepsInstalled(s.world, Act(s.world, e), k, i);
    case PassCalls(j, answer, h) =>
      if j == k {
        OwnCallStaysSteady(s.world, s.passes[k], s.config.stored.config, s.config.epoch, answer, h, i);
      } else {
        assert SafeAt(s, j);
        var v := Effect(s.world, s.passes[j], answer, h);
        PassesAreIsolated(s.world, s.passes[j], answer, h, k);
        EffectKeepsReplicas(s.world, s.passes[j], answer, h);
        OthersAreKind(s.world, v, k);
        KindKeepsInstalled(s.world, v, k, i);
      }
    case _ =>
  }

  /**
   Repeating it writes nothing, provided that the server stores specs as they are sent: from a state with the
   installation in place and no Flux write pending, as long as nobody tampers, the Kro is not deleted and the
   passes find the same inputs, no Flux write is ever issued again, and the three specs stay as they are.
   */
  lemma {:induction false} SteadyStateWritesNothing(r: Run, k: Key, i: Inputs, start: nat, end: nat)
    requires ValidRun(r) && Untampered(r) && start <= end < |r.states|
    requires Steady(r.states[start], k, i)
    requires forall n :: start <= n <= end ==> !Deleted(r.states[n].world, k)
    requires forall n :: start <= n <= end && k in r.states[n].passes ==> Uses(r.states[n].passes[k], i)
    ensures Steady(r.states[end], k, i)
    decreases end
  {
    hide Steady, Deleted, Uses, Initial, Apply, Enabled, Tampers, IntactAt;
    if start < end {
      SteadyStateWritesNothing(r, k, i, start, end - 1);
      RunStatesAreReachable(r, end - 1);
      ReachableIsSafe(r.states[end - 1]);
      RunsAreIntact(r, end - 1, k);
      StepStaysSteady(r.states[end - 1], r.actions[end - 1], k, i);
    }
  }
}
