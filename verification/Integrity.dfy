/**
 Installing a Kro, in runs in which nobody interferes with what the operator replicated or wrote: the
 plan of a create pass is carried out in order, what refers to something never precedes it, and a pass
 that gets through the plan leaves the installation its inputs describe, whatever happened before.
 */
module Integrity {
  import opened Wrappers
  import opened Resources
  import opened Flux
  import opened Passes
  import opened Worlds
  import opened Operator
  import opened Safety
  import Statuses
  import Versions

  // ---------- the invariant ----------

  /** A secret this operator wrote is in place. */
  ghost predicate Replicated(w: World, r: SecretRef) { r in w.secrets && r in w.replicas }

  ghost predicate Accomplished(w: World, p: Pass, t: Task) {
    match t
    case PutFlux(which) =>
      var ref := RefOf(which, Tenant(p.key));
      ref in w.flux && w.flux[ref].spec == Desired(p, which)
    case PutSecret(target) => Replicated(w, Place(w, target))
    case PutNamespace => Home(w, p.key) in w.namespaces
    case Abort(_) => false
    case _ => true
  }

  ghost function PlanOf(p: Pass): seq<Task> { Plan(p.key, p.version, p.ctx) }

  /** The first `n` tasks of the plan are accomplished. */
  ghost predicate DoneUpTo(w: World, p: Pass, n: nat) {
    n <= |PlanOf(p)| && forall i :: 0 <= i < n ==> Accomplished(w, p, PlanOf(p)[i])
  }

  /** The position in the plan of the current entry. */
  ghost function Position(p: Pass): int
    requires AtTask(p)
  {
    |PlanOf(p)| - |p.pc.rest| - 1
  }

  /** A pass at a task has the rest of the plan ahead. */
  ghost predicate OnCourse(p: Pass) {
    AtTask(p) ==> Position(p) >= 0 && PlanOf(p)[Position(p)..] == [p.pc.task] + p.pc.rest
  }

  /** It has accomplished the entries before it. */
  ghost predicate Underway(w: World, p: Pass) {
    OnCourse(p) && (AtTask(p) ==> DoneUpTo(w, p, Position(p)))
  }

  /** The last write of the plan was answered: the pass is over, and the whole plan accomplished. */
  ghost predicate Complete(w: World, p: Pass) {
    Main in p.got ==> p.mode == Creating && Leaving(p) && DoneUpTo(w, p, |PlanOf(p)|)
  }

  ghost predicate Resolved(p: Pass) {
    AtTask(p) || Main in p.got ==> Versions.Resolve(p.config, p.obj.version) == Success(p.version)
  }

  ghost predicate NoneFading(w: World, k: Key) {
    !Fading(w, RefOf(Oci, Tenant(k))) && !Fading(w, RefOf(Main, Tenant(k))) && !Fading(w, RefOf(Crds, Tenant(k)))
  }

  ghost predicate Deleted(w: World, k: Key) { k in w.kros && w.kros[k].deleting }

  /** The chart source, if it names a pull secret, finds it in its namespace. */
  ghost predicate SourceIntact(w: World, k: Key) {
    var ref := RefOf(Oci, Tenant(k));
    ref in w.flux ==>
      && w.flux[ref].spec.OCISpec?
      && Versions.OCI_SCHEME <= w.flux[ref].spec.url
      && (w.flux[ref].spec.secretRef.Some? ==> Replicated(w, ChartPullTarget(k, w.flux[ref].spec.secretRef.value)))
  }

  /** The secrets a main release with spec `s` refers to are in place. */
  ghost predicate Provided(w: World, k: Key, s: FluxSpec) {
    && IsMain(s, Tenant(k)) && Home(w, k) in w.namespaces
    && Versions.ExtractHelmValues(s.values).Success?
    && (forall n <- Versions.ExtractHelmValues(s.values).value :: Replicated(w, Place(w, ImagePullTarget(k, n))))
    && Replicated(w, Place(w, KubeconfigTarget(k)))
  }

  ghost predicate ReleaseIntact(w: World, k: Key) {
    var ref := RefOf(Main, Tenant(k));
    ref in w.flux ==> Provided(w, k, w.flux[ref].spec)
  }

  ghost predicate CrdsIntact(w: World, k: Key) {
    var ref := RefOf(Crds, Tenant(k));
    ref in w.flux ==> IsCrds(w.flux[ref].spec, Tenant(k))
  }

  /** Until its Kro is deleted, a main release has its chart source. */
  ghost predicate Sourced(w: World, k: Key) { !Gone(w, k, Main) && !Deleted(w, k) ==> !Gone(w, k, Oci) }

  ghost predicate StoreIntact(w: World, k: Key) {
    && (NoneFading(w, k) || Deleted(w, k))
    && SourceIntact(w, k) && ReleaseIntact(w, k) && CrdsIntact(w, k) && Sourced(w, k)
  }

  ghost predicate PassIntact(w: World, p: Pass) {
    && (p.mode == Creating || (p.pc.LoadConfig? && !p.obj.deleting) ==> NoneFading(w, p.key))
    && Underway(w, p) && Complete(w, p) && Resolved(p)
  }

  ghost predicate IntactAt(s: System, k: Key) {
    StoreIntact(s.world, k) && (k in s.passes ==> s.passes[k].key == k && PassIntact(s.world, s.passes[k]))
  }

  // ---------- what others may do ----------

  ghost predicate KindTo(w: World, v: World, ref: FluxRef) {
    && (ref in v.flux ==>
          && ref in w.flux && v.flux[ref].spec == w.flux[ref].spec
          && (v.flux[ref].deleting ==> w.flux[ref].deleting))
    && (ref in w.flux && !w.flux[ref].deleting ==> ref in v.flux)
  }

  ghost predicate KeepsReplicas(w: World, v: World) {
    v.homes == w.homes && forall r :: Replicated(w, r) ==> Replicated(v, r)
  }

  /** From `w` to `v` tenant `k` keeps what was installed, except for deletions asked for before. */
  ghost predicate Kindly(w: World, v: World, k: Key) {
    && KindTo(w, v, RefOf(Oci, Tenant(k))) && KindTo(w, v, RefOf(Main, Tenant(k)))
      && KindTo(w, v, RefOf(Crds, Tenant(k)))
    && KeepsReplicas(w, v)
    && (Home(w, k) in w.namespaces ==> Home(w, k) in v.namespaces)
    && (!NoFlux(w, k) && Deleted(w, k) ==> Deleted(v, k))
  }

  lemma KindKeepsStore(w: World, v: World, k: Key, needs: bool)
    requires StoreSafe(w, k, needs) && StoreIntact(w, k) && Kindly(w, v, k)
    ensures StoreIntact(v, k)
  {
    hide StoreSafe;
  }

  lemma KindKeepsTask(w: World, v: World, p: Pass, t: Task)
    requires NoneFading(w, p.key) && Kindly(w, v, p.key) && Accomplished(w, p, t)
    ensures Accomplished(v, p, t)
  {
    if t.PutFlux? {
      match t.which case Oci => case Main => case Crds =>
    }
  }

  lemma KindKeepsTasks(w: World, v: World, p: Pass, n: nat)
    requires NoneFading(w, p.key) && Kindly(w, v, p.key) && DoneUpTo(w, p, n)
    ensures DoneUpTo(v, p, n)
  {
    hide NoneFading, Kindly, Accomplished, PlanOf;
    forall i | 0 <= i < n ensures Accomplished(v, p, PlanOf(p)[i]) {
      KindKeepsTask(w, v, p, PlanOf(p)[i]);
    }
  }

  lemma KindKeepsPass(w: World, v: World, p: Pass)
    requires PassSafe(w, p) && PassIntact(w, p) && Kindly(w, v, p.key)
    ensures PassIntact(v, p)
  {
    if AtTask(p) {
      KindKeepsTasks(w, v, p, |PlanOf(p)| - |p.pc.rest| - 1);
    }
    if Main in p.got {
      KindKeepsTasks(w, v, p, |PlanOf(p)|);
    }
    hide DoneUpTo, PlanOf, KeepsReplicas;
  }

  lemma EffectKeepsReplicas(w: World, p: Pass, a: Answer, h: Hidden)
    ensures KeepsReplicas(w, Effect(w, p, a, h))
  {
    hide Effect;
    forall r | Replicated(w, r) ensures Replicated(Effect(w, p, a, h), r) {
      assert r in w.secrets.Keys;
    }
  }

  lemma PuttingIsKind(w: World, j: Key, kro: Kro, k: Key)
    requires !NoFlux(w, k) && Deleted(w, k) && j == k ==> kro.deleting && kro.finalizer
    ensures Kindly(w, PutKro(w, j, kro), k)
  {
  }

  lemma StandingStillIsKind(w: World, k: Key)
    ensures Kindly(w, w, k)
  {
  }

  lemma OthersAreKind(w: World, v: World, k: Key)
    requires SameTenant(w, v, k) && KeepsReplicas(w, v)
    ensures Kindly(w, v, k)
  {
    assert forall which :: RefOf(which, Tenant(k)) in w.flux <==> RefOf(which, Tenant(k)) in v.flux;
    assert KroAt(w, k) == KroAt(v, k);
  }

  // ---------- the environment ----------

  lemma FluxUpdatesAreKind(w: World, ref: FluxRef, o: FluxObject, k: Key)
    requires ref in w.flux && o.spec == w.flux[ref].spec && o.deleting == w.flux[ref].deleting
    ensures Kindly(w, Tick(w.(flux := w.flux[ref := o])), k)
    ensures o.deleting ==> Kindly(w, Tick(w.(flux := w.flux - {ref})), k)
  {
  }

  lemma OtherMovesAreKind(w: World, e: Env, k: Key)
    requires Permitted(w, e) && !Tampers(w, e)
    requires e.SomeoneStores? || e.SomeoneDrops? || e.UserSetsRGDs? || e.ProviderGrants? || e.ProviderReleases?
    ensures Kindly(w, Act(w, e), k)
  {
  }

  lemma EditingIsKind(w: World, j: Key, kro: Kro, k: Key, needs: bool)
    requires StoreSafe(w, k, needs) && j in w.kros
    requires (w.kros[j].deleting ==> kro.deleting) && (w.kros[j].finalizer ==> kro.finalizer)
    ensures Kindly(w, PutKro(w, j, kro), k)
  {
    hide Kindly;
    PuttingIsKind(w, j, kro, k);
  }

  lemma EnvironmentIsKind(w: World, e: Env, k: Key, needs: bool)
    requires StoreSafe(w, k, needs) && Permitted(w, e) && !Tampers(w, e)
    ensures Kindly(w, Act(w, e), k)
  {
    hide PutKro, Kindly, StoreSafe, RequestDeletion;
    match e
    case UserCreates(j, version, op, foreign) =>
      PuttingIsKind(w, j, Kro(version, op, 1, w.clock + 1, false, false, foreign, EMPTY_STATUS), k);
    case UserEdits(j, version) =>
      EditingIsKind(w, j, Bumped(w, w.kros[j].(version := version, generation := w.kros[j].generation + 1)), k, needs);
    case UserAnnotates(j, op) => EditingIsKind(w, j, Bumped(w, w.kros[j].(op := op)), k, needs);
    case UserDeletes(j) =>
      EditingIsKind(w, j, Bumped(w, w.kros[j].(deleting := true, generation := w.kros[j].generation + 1)), k, needs);
    case ForeignReleases(j) => EditingIsKind(w, j, Bumped(w, w.kros[j].(foreign := false)), k, needs);
    case FluxReports(ref, cs) => FluxUpdatesAreKind(w, ref, w.flux[ref].(conditions := cs, rv := w.clock + 1), k);
    case FluxHolds(ref) => FluxUpdatesAreKind(w, ref, w.flux[ref].(held := true, rv := w.clock + 1), k);
    case FluxReleases(ref) => FluxUpdatesAreKind(w, ref, w.flux[ref].(held := false, rv := w.clock + 1), k);
    case _ => OtherMovesAreKind(w, e, k);
  }

  // ---------- the pass's own calls ----------

  /** Calls other than those of the plan and the deletions. */
  predicate Plain(p: Pass) { !AtTask(p) && !p.pc.DeleteObject? }

  lemma PlainCallsAreKind(w: World, p: Pass, cache: Option<ProviderConfig>, epoch: nat, a: Answer, h: Hidden)
    requires StoreSafe(w, p.key, p.needsWorkload) && PassSafe(w, p) && Plain(p)
    requires Lawful(w, p, cache, epoch, a, h)
    ensures Kindly(w, Effect(w, p, a, h), p.key)
  {
    hide PutKro, Kindly, NoRequests, AllLive, WithAccess, Dismantling, Installing, NotRevoking, OwnPlan, GoneBefore;
    hide LawfulReconcileAccess, LawfulRevoke, LawfulLook, LawfulWrite, MakeRequests, RevokeRequests, EffectOfDelete,
      EffectOfLook, EffectOfWrite;
    var k := p.key;
    StandingStillIsKind(w, k);
    match p.pc
    case PatchAnnotation => if a.GotKro? { EditingIsKind(w, k, a.kro, k, p.needsWorkload); }
    case UpdateFinalizer => if a.GotKro? { EditingIsKind(w, k, a.kro, k, p.needsWorkload); }
    case RemoveFinalizer => if a.GotKro? { PuttingIsKind(w, k, a.kro, k); }
    case PatchStatus(_) =>
      if k in w.kros { EditingIsKind(w, k, Bumped(w, w.kros[k].(status := p.obj.status)), k, p.needsWorkload); }
    case ReconcileAccess => RequestChangesAreKind(w, k, h);
    case RevokeAccess => RequestChangesAreKind(w, k, h);
    case _ =>
  }

  lemma RequestChangesAreKind(w: World, k: Key, h: Hidden)
    ensures Kindly(w, MakeRequests(w, k, h.first), k)
    ensures Kindly(w, RevokeRequests(w, k, h), k)
  {
    hide MakeRequests, RevokeRequests;
  }

  /** Outside the plan, only the decision to create matters, which is taken for a Kro seen alive. */
  lemma OutsideThePlan(v: World, p: Pass, q: Pass)
    requires PassIntact(v, p) && !AtTask(p) && !Leaving(p) && !AtTask(q) && q.key == p.key && q.got == p.got
    requires q.mode == Creating || (q.pc.LoadConfig? && !q.obj.deleting) ==> NoneFading(v, p.key)
    ensures PassIntact(v, q)
  {
  }

  /** A Kro that is read as it is now is not being deleted unless it says so. */
  lemma ReadingIsIntact(w: World, v: World, p: Pass, a: Answer)
    requires StoreIntact(w, p.key) && PassSafe(w, p) && PassIntact(v, p)
    requires p.pc.GetKro? || p.pc.PatchAnnotation?
    requires a.GotKro? ==> p.key in w.kros && a.kro.deleting == w.kros[p.key].deleting
    requires NoneFading(w, p.key) ==> NoneFading(v, p.key)
    ensures PassIntact(v, Passes.Step(p, a))
  {
    hide Passes.Step, NoneFading, DoneUpTo, SourceIntact, ReleaseIntact, Sourced, Doomed, NotRevoking;
    OutsideThePlan(v, p, Passes.Step(p, a));
  }

  lemma LoadingIsIntact(v: World, p: Pass, a: Answer)
    requires PassIntact(v, p) && p.pc.LoadConfig? && p.mode != Creating
    ensures PassIntact(v, AfterLoadConfig(p, a))
  {
    hide AfterLoadConfig, NoneFading, DoneUpTo;
    OutsideThePlan(v, p, AfterLoadConfig(p, a));
  }

  lemma LaterCallsAreIntact(v: World, p: Pass, a: Answer)
    requires PassIntact(v, p) && Plain(p) && !Leaving(p) && !p.pc.ResolveNamespace?
    requires !p.pc.GetKro? && !p.pc.PatchAnnotation? && !p.pc.LoadConfig?
    ensures PassIntact(v, Passes.Step(p, a))
  {
    hide PassIntact;
    StaysOutside(p, a);
    if p.mode == Creating { ModeIsIntact(v, p); }
    OutsideThePlan(v, p, Passes.Step(p, a));
  }

  lemma ModeIsIntact(v: World, p: Pass)
    requires PassIntact(v, p) && p.mode == Creating
    ensures NoneFading(v, p.key)
  {
  }

  lemma StaysOutside(p: Pass, a: Answer)
    requires Plain(p) && !Leaving(p) && !p.pc.ResolveNamespace?
    requires !p.pc.GetKro? && !p.pc.PatchAnnotation? && !p.pc.LoadConfig?
    ensures var q := Passes.Step(p, a); !AtTask(q) && q.got == p.got && q.mode == p.mode && !q.pc.LoadConfig?
  {
    hide AfterGetForFinalizer, AfterUpdateFinalizer,
      AfterCheckRequest, AfterReconcileAccess, AfterGetCluster, AfterGetRequest, AfterResolveNamespace,
      AfterLook, AfterWrite, AfterCountRGDs, AfterDeleteObject, AfterConfirmGone, AfterRevokeAccess,
      AfterRemoveFinalizer, FailProgressing;
    match p.pc
    case GetForFinalizer =>
    case RecreateKro =>
    case UpdateFinalizer =>
    case CheckRequest(_) =>
    case ReconcileAccess =>
    case GetCluster(_) =>
    case GetRequest(_) =>
    case CountRGDs =>
    case ConfirmGone(_, _) =>
    case RevokeAccess =>
    case RemoveFinalizer =>
  }

  /** What is accomplished depends on the registers that the plan is made of, and on no other. */
  lemma SamePlanSameTasks(w: World, p: Pass, q: Pass, n: nat)
    requires DoneUpTo(w, p, n) && q.key == p.key && q.version == p.version && q.ctx == p.ctx
    requires q.fluxSecret == p.fluxSecret || forall i :: 0 <= i < n ==> PlanOf(p)[i] != PutFlux(Main)
    ensures DoneUpTo(w, q, n) && PlanOf(q) == PlanOf(p)
  {
    hide Plan, Replicated;
    forall i | 0 <= i < n ensures Accomplished(w, q, PlanOf(q)[i]) {
      assert Accomplished(w, p, PlanOf(p)[i]);
    }
  }

  lemma LeavingIsIntact(v: World, p: Pass, a: Answer)
    requires PassIntact(v, p) && p.pc.PatchStatus?
    ensures PassIntact(v, AfterPatchStatus(p, p.pc.result, a))
  {
    hide AfterPatchStatus, DoneUpTo, PlanOf;
    if Main in p.got {
      SamePlanSameTasks(v, p, AfterPatchStatus(p, p.pc.result, a), |PlanOf(p)|);
    }
  }

  lemma BeginningIsIntact(v: World, p: Pass, a: Answer)
    requires PassIntact(v, p) && p.pc.ResolveNamespace?
    ensures PassIntact(v, AfterResolveNamespace(p, a))
  {
    hide BeginTeardown, Fail, NoneFading, Plan, FailProgressing;
    var q := AfterResolveNamespace(p, a);
    if q.pc.Look? {
      assert PlanOf(q) == [q.pc.task] + q.pc.rest;
      assert PlanOf(q)[0..] == PlanOf(q);
    }
  }

  // ---------- the plan ----------

  lemma {:induction false} CopiesEverySecret(k: Key, names: seq<string>)
    ensures forall n <- names :: PutSecret(ImagePullTarget(k, n)) in CopyImageSecrets(k, names)
    ensures forall t <- CopyImageSecrets(k, names) :: !t.PutFlux?
  {
    if names != [] { CopiesEverySecret(k, names[1..]); }
  }

  /** The plan without its last task, the main release. */
  ghost function Preparations(k: Key, v: KroVersion, ctx: ClusterContext): seq<Task> {
    ChartSecretTasks(k, v.chartPullSecret) + ([PutFlux(Oci)]
      + (ImageSecretTasks(k, ctx.workload, v.helmValues) + (KubeconfigTasks(k, ctx) + [PutFlux(Crds),
        ReadWorkloadRequest])))
  }

  lemma OnlyReleasesPutFlux(k: Key, v: KroVersion, ctx: ClusterContext)
    ensures forall t <- ChartSecretTasks(k, v.chartPullSecret) + ImageSecretTasks(k, ctx.workload, v.helmValues)
      + KubeconfigTasks(k, ctx) :: !t.PutFlux?
  {
    if Versions.ExtractHelmValues(v.helmValues).Success? {
      CopiesEverySecret(k, Versions.ExtractHelmValues(v.helmValues).value);
    }
  }

  /** The main release comes last, once. */
  lemma MainComesLast(k: Key, v: KroVersion, ctx: ClusterContext)
    ensures Plan(k, v, ctx) == Preparations(k, v, ctx) + [PutFlux(Main)]
    ensures PutFlux(Main) !in Preparations(k, v, ctx)
    ensures PutFlux(Oci) in Preparations(k, v, ctx) && PutFlux(Crds) in Preparations(k, v, ctx)
  {
    hide ChartSecretTasks, ImageSecretTasks, KubeconfigTasks;
    OnlyReleasesPutFlux(k, v, ctx);
    var chart, images := ChartSecretTasks(k, v.chartPullSecret), ImageSecretTasks(k, ctx.workload, v.helmValues);
    var config, start := KubeconfigTasks(k, ctx), [PutFlux(Crds), ReadWorkloadRequest];
    assert RELEASES == start + [PutFlux(Main)];
    assert forall t <- Preparations(k, v, ctx) ::
      t in chart + images + config || t == PutFlux(Oci) || t == PutFlux(Crds) || t == ReadWorkloadRequest;
    assert start[0] in config + start && start[0] in images + (config + start);
  }

  /** The chart source comes once, right after the replication of its pull secret, if it has one. */
  lemma SourceComesThird(k: Key, v: KroVersion, ctx: ClusterContext, i: nat)
    requires v.chartPullSecret != "" && i < |Plan(k, v, ctx)| && Plan(k, v, ctx)[i] == PutFlux(Oci)
    ensures i == 2 && Plan(k, v, ctx)[1] == PutSecret(ChartPullTarget(k, v.chartPullSecret))
  {
    hide ImageSecretTasks, KubeconfigTasks;
    OnlyReleasesPutFlux(k, v, ctx);
  }

  /** Whatever the main release refers to is prepared before it, unless the plan is doomed to abort. */
  lemma ReleaseIsPrepared(k: Key, v: KroVersion, ctx: ClusterContext)
    ensures (exists t <- Preparations(k, v, ctx) :: t.Abort?) || PreparesRelease(k, v, ctx)
  {
    var images, config := ImageSecretTasks(k, ctx.workload, v.helmValues), KubeconfigTasks(k, ctx);
    assert forall t <- images + config :: t in Preparations(k, v, ctx);
    if Versions.ExtractHelmValues(v.helmValues).Success? {
      CopiesEverySecret(k, Versions.ExtractHelmValues(v.helmValues).value);
    } else {
      assert images[0].Abort?;
    }
    if ctx.workload {
      assert PutNamespace == config[1] && PutSecret(KubeconfigTarget(k)) == config[2];
    } else {
      assert config[0].Abort?;
    }
  }

  ghost predicate PreparesRelease(k: Key, v: KroVersion, ctx: ClusterContext) {
    && PutNamespace in Preparations(k, v, ctx) && PutSecret(KubeconfigTarget(k)) in Preparations(k, v, ctx)
    && Versions.ExtractHelmValues(v.helmValues).Success?
    && forall n <- Versions.ExtractHelmValues(v.helmValues).value ::
        PutSecret(ImagePullTarget(k, n)) in Preparations(k, v, ctx)
  }

  // ---------- the calls of the plan ----------

  lemma LookAccomplishes(w: World, p: Pass, a: Answer)
    requires p.pc.Look? && (a.Failed? || LawfulLook(w, p, p.pc.task, a))
    ensures var v, q := EffectOfLook(w, p, p.pc.task, a), AfterLook(p, p.pc.task, p.pc.rest, a);
      q.pc.Look? || (p.pc.task == PutFlux(Main) && q.got != p.got) ==> Accomplished(v, q, p.pc.task)
  {
    hide Continue, FailProgressing;
  }

  lemma WriteAccomplishes(w: World, p: Pass, a: Answer)
    requires p.pc.Write? && (a.Failed? || LawfulWrite(w, p, p.pc.task, p.pc.seen, a))
    ensures var v, q := EffectOfWrite(w, p, p.pc.task, a), AfterWrite(p, p.pc.task, p.pc.rest, a);
      q.pc.Look? || (p.pc.task == PutFlux(Main) && q.got != p.got) ==> Accomplished(v, q, p.pc.task)
  {
    hide Continue, FailProgressing;
  }

  lemma Head<T>(s: seq<T>, n: nat, first: T, rest: seq<T>)
    requires n < |s| && s[n..] == [first] + rest
    ensures s[n] == first && s[n + 1..] == rest
  {
    assert s[n] == s[n..][0] && s[n + 1..] == s[n..][1..];
  }

  lemma TaskIsAtPosition(p: Pass)
    requires AtTask(p) && OnCourse(p)
    ensures var n := Position(p);
      && 0 <= n < |PlanOf(p)| && PlanOf(p)[n] == p.pc.task && PlanOf(p)[n + 1..] == p.pc.rest
      && (p.pc.task == PutFlux(Main) <==> n == |PlanOf(p)| - 1) && (p.pc.task == PutFlux(Main) <==> p.pc.rest == [])
      && (forall i :: 0 <= i < n ==> PlanOf(p)[i] != PutFlux(Main))
  {
    hide Plan;
    var plan, n := PlanOf(p), Position(p);
    MainComesLast(p.key, p.version, p.ctx);
    Head(plan, n, p.pc.task, p.pc.rest);
    assert plan[..|plan| - 1] == Preparations(p.key, p.version, p.ctx);
    assert forall i :: 0 <= i < |plan| - 1 ==> plan[i] == plan[..|plan| - 1][i];
  }

  /** The pass has dealt with the current entry, or is still at it. */
  ghost predicate Advances(p: Pass, q: Pass)
    requires AtTask(p)
  {
    && q.key == p.key && q.version == p.version && q.ctx == p.ctx && q.mode == p.mode
    && (Leaving(q) || AtTask(q)) && Resumes(q, p.pc.rest)
    && (q.pc.Write? ==> q.pc.task == p.pc.task && q.pc.rest == p.pc.rest)
    && (Main in q.got ==> p.pc.task == PutFlux(Main) && !AtTask(q) && q.fluxSecret == p.fluxSecret)
  }

  lemma AdvancingIsUnderway(v: World, p: Pass, q: Pass)
    requires AtTask(p) && Underway(v, p) && Advances(p, q) && p.mode == Creating
    requires q.pc.Look? || Main in q.got ==> Accomplished(v, q, p.pc.task)
    ensures Underway(v, q) && Complete(v, q)
  {
    hide Accomplished, Plan;
    TaskIsAtPosition(p);
    SamePlanSameTasks(v, p, q, Position(p));
    var n := Position(p);
    if q.pc.Look? {
      assert PlanOf(q)[n + 1..] == [q.pc.task] + q.pc.rest;
    } else if q.pc.Write? {
      assert PlanOf(q)[n..] == [q.pc.task] + q.pc.rest;
    }
  }

  /** Where the plan stands after the current entry. */
  lemma AdvancingIsIntact(v: World, p: Pass, q: Pass, a: Answer)
    requires AtTask(p) && p.mode == Creating && PassIntact(v, p)
    requires OnPlan(p, q) && Resumes(q, p.pc.rest) && Records(p, q, p.pc.task, a)
    requires q.pc.Write? ==> q.pc.task == p.pc.task && q.pc.rest == p.pc.rest
    requires q.pc.Look? || (p.pc.task == PutFlux(Main) && q.got != p.got) ==> Accomplished(v, q, p.pc.task)
    ensures PassIntact(v, q)
  {
    hide NoneFading, Plan, Accomplished, Statuses.Agrees, DoneUpTo, AllReady, OnCourse;
    TaskIsAtPosition(p);
    AdvancingIsUnderway(v, p, q);
  }

  ghost function AfterFluxWrite(w: World, p: Pass, which: Which): World {
    Tick(w.(flux := w.flux[RefOf(which, Tenant(p.key)) := Written(w, p, which)]))
  }

  lemma WritingKeepsTask(w: World, p: Pass, which: Which, t: Task)
    requires Accomplished(w, p, t)
    ensures Accomplished(AfterFluxWrite(w, p, which), p, t)
  {
    if t.PutFlux? {
      match t.which case Oci => case Main => case Crds =>
    }
  }

  lemma WritingKeepsTasks(w: World, p: Pass, which: Which, n: nat)
    requires DoneUpTo(w, p, n)
    ensures DoneUpTo(AfterFluxWrite(w, p, which), p, n)
  {
    hide PlanOf, Accomplished, AfterFluxWrite;
    forall i | 0 <= i < n ensures Accomplished(AfterFluxWrite(w, p, which), p, PlanOf(p)[i]) {
      WritingKeepsTask(w, p, which, PlanOf(p)[i]);
    }
  }

  lemma PreparationsAreDone(w: World, p: Pass)
    requires AtTask(p) && Underway(w, p) && p.pc.task == PutFlux(Main)
    ensures forall t <- Preparations(p.key, p.version, p.ctx) :: Accomplished(w, p, t)
  {
    TaskIsAtPosition(p);
    MainComesLast(p.key, p.version, p.ctx);
    hide Plan, Preparations, Accomplished;
    forall t <- Preparations(p.key, p.version, p.ctx) ensures Accomplished(w, p, t) {
      var i :| 0 <= i < |Preparations(p.key, p.version, p.ctx)| && Preparations(p.key, p.version, p.ctx)[i] == t;
      assert PlanOf(p)[i] == t;
    }
  }

  /** The main release is written only once everything it refers to has been replicated. */
  lemma MainIsProvided(w: World, p: Pass)
    requires AtTask(p) && Underway(w, p) && p.pc.task == PutFlux(Main)
    ensures Provided(w, p.key, Desired(p, Main)) && !Gone(w, p.key, Oci)
  {
    var k, v := p.key, p.version;
    hide Underway, Plan, Preparations, Replicated;
    PreparationsAreDone(w, p);
    MainComesLast(k, v, p.ctx);
    ReleaseIsPrepared(k, v, p.ctx);
    assert Accomplished(w, p, PutFlux(Oci));
    forall n <- Versions.ExtractHelmValues(v.helmValues).value ensures Replicated(w, Place(w, ImagePullTarget(k, n))) {
      assert Accomplished(w, p, PutSecret(ImagePullTarget(k, n)));
    }
    assert Accomplished(w, p, PutSecret(KubeconfigTarget(k))) && Accomplished(w, p, PutNamespace);
    SpecsAreAsDescribed(v, Tenant(k), v.helmValues, p.fluxSecret);
  }

  lemma SourceIsProvided(w: World, p: Pass)
    requires AtTask(p) && Underway(w, p) && p.pc.task == PutFlux(Oci) && p.version.chartPullSecret != ""
    ensures Replicated(w, ChartPullTarget(p.key, p.version.chartPullSecret))
  {
    hide Plan, Replicated;
    TaskIsAtPosition(p);
    SourceComesThird(p.key, p.version, p.ctx, Position(p));
    assert Accomplished(w, p, PlanOf(p)[1]);
  }

  lemma WritingKeepsStore(w: World, p: Pass, which: Which)
    requires StoreIntact(w, p.key) && AtTask(p) && Underway(w, p) && NoneFading(w, p.key) && p.pc.task == PutFlux(which)
    ensures StoreIntact(AfterFluxWrite(w, p, which), p.key) && NoneFading(AfterFluxWrite(w, p, which), p.key)
  {
    hide Underway, Provided, AfterFluxWrite;
    match which
    case Oci =>
      if p.version.chartPullSecret != "" { SourceIsProvided(w, p); }
      WritingSourceKeepsStore(w, p);
    case Main =>
      MainIsProvided(w, p);
      WritingReleaseKeepsStore(w, p);
    case Crds => WritingCrdsKeepsStore(w, p);
  }

  lemma WritingSourceKeepsStore(w: World, p: Pass)
    requires StoreIntact(w, p.key) && NoneFading(w, p.key)
    requires p.version.chartPullSecret != "" ==> Replicated(w, ChartPullTarget(p.key, p.version.chartPullSecret))
    ensures StoreIntact(AfterFluxWrite(w, p, Oci), p.key) && NoneFading(AfterFluxWrite(w, p, Oci), p.key)
  {
    Versions.ChartURLIsNormal(p.version);
  }

  lemma WritingReleaseKeepsStore(w: World, p: Pass)
    requires StoreIntact(w, p.key) && NoneFading(w, p.key)
    requires Provided(w, p.key, Desired(p, Main)) && !Gone(w, p.key, Oci)
    ensures StoreIntact(AfterFluxWrite(w, p, Main), p.key) && NoneFading(AfterFluxWrite(w, p, Main), p.key)
  {
    hide Desired;
  }

  lemma WritingCrdsKeepsStore(w: World, p: Pass)
    requires StoreIntact(w, p.key) && NoneFading(w, p.key)
    ensures StoreIntact(AfterFluxWrite(w, p, Crds), p.key) && NoneFading(AfterFluxWrite(w, p, Crds), p.key)
  {
    hide Desired, IsCrds;
    CrdsIsDesired(p);
  }

  lemma CrdsIsDesired(p: Pass)
    ensures IsCrds(Desired(p, Crds), Tenant(p.key))
  {
    SpecsAreAsDescribed(p.version, Tenant(p.key), None, p.ctx.mcpSecret);
  }

  lemma LookIsIntact(w: World, p: Pass, a: Answer)
    requires p.pc.Look? && p.mode == Creating && StoreSafe(w, p.key, p.needsWorkload) && PassSafe(w, p)
    requires StoreIntact(w, p.key) && PassIntact(w, p) && (a.Failed? || LawfulLook(w, p, p.pc.task, a))
    ensures var v, q := EffectOfLook(w, p, p.pc.task, a), AfterLook(p, p.pc.task, p.pc.rest, a);
      StoreIntact(v, p.key) && PassIntact(v, q)
  {
    hide EffectOfLook, AfterLook, LawfulLook, StoreIntact, PassIntact, StoreSafe, PassSafe, Accomplished;
    var v, q := EffectOfLook(w, p, p.pc.task, a), AfterLook(p, p.pc.task, p.pc.rest, a);
    KindKeepsStore(w, v, p.key, p.needsWorkload);
    KindKeepsPass(w, v, p);
    LookAccomplishes(w, p, a);
    AdvancingIsIntact(v, p, q, a);
  }

  lemma SecretWritesAreKind(w: World, p: Pass, a: Answer)
    requires p.pc.Write? && (!p.pc.task.PutFlux? || a.Failed?)
    ensures Kindly(w, EffectOfWrite(w, p, p.pc.task, a), p.key)
  {
  }

  lemma WriteIsIntact(w: World, p: Pass, a: Answer)
    requires p.pc.Write? && p.mode == Creating && StoreSafe(w, p.key, p.needsWorkload) && PassSafe(w, p)
    requires StoreIntact(w, p.key) && PassIntact(w, p) && (a.Failed? || LawfulWrite(w, p, p.pc.task, p.pc.seen, a))
    ensures var v, q := EffectOfWrite(w, p, p.pc.task, a), AfterWrite(p, p.pc.task, p.pc.rest, a);
      StoreIntact(v, p.key) && PassIntact(v, q)
  {
    hide AfterWrite, LawfulWrite, StoreIntact, PassIntact, StoreSafe, PassSafe, Accomplished, Written;
    var v, q := EffectOfWrite(w, p, p.pc.task, a), AfterWrite(p, p.pc.task, p.pc.rest, a);
    if p.pc.task.PutFlux? && !a.Failed? {
      FluxWriteKeepsPass(w, p, p.pc.task.which);
    } else {
      hide EffectOfWrite;
      SecretWritesAreKind(w, p, a);
      KindKeepsStore(w, v, p.key, p.needsWorkload);
      KindKeepsPass(w, v, p);
    }
    WriteAccomplishes(w, p, a);
    AdvancingIsIntact(v, p, q, a);
  }

  lemma FluxWriteKeepsPass(w: World, p: Pass, which: Which)
    requires p.pc.Write? && p.mode == Creating && p.pc.task == PutFlux(which)
    requires StoreIntact(w, p.key) && PassIntact(w, p)
    ensures StoreIntact(AfterFluxWrite(w, p, which), p.key) && PassIntact(AfterFluxWrite(w, p, which), p)
  {
    hide AfterFluxWrite, StoreIntact, NoneFading, DoneUpTo;
    WritingKeepsStore(w, p, which);
    WritingKeepsTasks(w, p, which, Position(p));
  }

  lemma DeletionsAreIntact(w: World, p: Pass, a: Answer)
    requires p.pc.DeleteObject? && StoreSafe(w, p.key, p.needsWorkload) && PassSafe(w, p)
    requires StoreIntact(w, p.key) && PassIntact(w, p)
    ensures var v, q := EffectOfDelete(w, p.pc.ref, a), AfterDeleteObject(p, p.pc.i, p.pc.ref, a);
      StoreIntact(v, p.key) && PassIntact(v, q)
  {
    hide AfterDeleteObject, DoneUpTo;
    var v := EffectOfDelete(w, p.pc.ref, a);
    assert Deleted(w, p.key);
    DeletionKeepsStore(w, p.pc.ref, p.key, a);
    hide StoreIntact, EffectOfDelete;
  }

  lemma DeletionKeepsStore(w: World, ref: FluxRef, k: Key, a: Answer)
    requires Deleted(w, k) && StoreIntact(w, k)
    ensures StoreIntact(EffectOfDelete(w, ref, a), k)
  {
  }

  // ---------- all steps ----------

  lemma TaskCallIsIntact(w: World, p: Pass, cache: Option<ProviderConfig>, epoch: nat, a: Answer, h: Hidden)
    requires StoreSafe(w, p.key, p.needsWorkload) && PassSafe(w, p) && !Plain(p)
    requires StoreIntact(w, p.key) && PassIntact(w, p) && Lawful(w, p, cache, epoch, a, h)
    ensures StoreIntact(Effect(w, p, a, h), p.key) && PassIntact(Effect(w, p, a, h), Passes.Step(p, a))
  {
    hide MovesOn, Stays, Accesses;
    hide StoreSafe, StoreIntact, PassIntact, WithAccess, OwnPlan, GoneBefore, LawfulLook, LawfulWrite,
      EffectOfDelete, EffectOfLook, EffectOfWrite;
    match p.pc
    case Look(_, _) => LookIsIntact(w, p, a);
    case Write(_, _, _) => WriteIsIntact(w, p, a);
    case DeleteObject(_, _) => DeletionsAreIntact(w, p, a);
  }

  lemma CallIsIntact(s: System, k: Key, a: Answer, h: Hidden)
    requires k in s.passes && SafeAt(s, k) && IntactAt(s, k)
    requires Lawful(s.world, s.passes[k], s.config.stored.config, s.config.epoch, a, h)
    ensures IntactAt(Calls(s, k, a, h), k)
  {
    hide StoreSafe, PassSafe, StoreIntact, PassIntact, Effect, Passes.Step, Lawful;
    if Plain(s.passes[k]) {
      PlainCallIsIntact(s.world, s.passes[k], s.config.stored.config, s.config.epoch, a, h);
    } else {
      TaskCallIsIntact(s.world, s.passes[k], s.config.stored.config, s.config.epoch, a, h);
    }
  }

  lemma PlainEffectIsIntact(w: World, p: Pass, cache: Option<ProviderConfig>, epoch: nat, a: Answer, h: Hidden)
    requires StoreSafe(w, p.key, p.needsWorkload) && PassSafe(w, p) && Plain(p)
    requires StoreIntact(w, p.key) && PassIntact(w, p) && Lawful(w, p, cache, epoch, a, h)
    ensures StoreIntact(Effect(w, p, a, h), p.key) && PassIntact(Effect(w, p, a, h), p)
  {
    hide StoreSafe, StoreIntact, PassIntact, PassSafe, Effect, Lawful, Kindly, Plain;
    PlainCallsAreKind(w, p, cache, epoch, a, h);
    KindKeepsStore(w, Effect(w, p, a, h), p.key, p.needsWorkload);
    KindKeepsPass(w, Effect(w, p, a, h), p);
  }

  lemma PlainCallIsIntact(w: World, p: Pass, cache: Option<ProviderConfig>, epoch: nat, a: Answer, h: Hidden)
    requires StoreSafe(w, p.key, p.needsWorkload) && PassSafe(w, p) && Plain(p)
    requires StoreIntact(w, p.key) && PassIntact(w, p) && Lawful(w, p, cache, epoch, a, h)
    ensures StoreIntact(Effect(w, p, a, h), p.key) && PassIntact(Effect(w, p, a, h), Passes.Step(p, a))
  {
    hide StoreSafe, StoreIntact, PassIntact, PassSafe, Effect, NoneFading, LawfulReconcileAccess, LawfulLook,
      LawfulWrite,
      LawfulCount, LawfulDelete, LawfulRevoke, LawfulRemoveFinalizer, LawfulPatchStatus, LawfulUpdateFinalizer,
      ReadsKro, ReadsRequest, ReadsFlux;
    PlainEffectIsIntact(w, p, cache, epoch, a, h);
    if p.pc.GetKro? || p.pc.PatchAnnotation? { ReadingIsTrue(w, p, cache, epoch, a, h); }
    var v := Effect(w, p, a, h);
    hide Lawful;
    match p.pc
    case GetKro => PlainEffectKeepsFlux(w, p, a, h); ReadingIsIntact(w, v, p, a);
    case PatchAnnotation => PlainEffectKeepsFlux(w, p, a, h); ReadingIsIntact(w, v, p, a);
    case LoadConfig => UndecidedIsNotCreating(w, p); LoadingIsIntact(v, p, a);
    case ResolveNamespace => BeginningIsIntact(v, p, a);
    case PatchStatus(_) => LeavingIsIntact(v, p, a);
    case Done(_) =>
    case _ => LaterCallsAreIntact(v, p, a);
  }

  lemma ReadingIsTrue(w: World, p: Pass, cache: Option<ProviderConfig>, epoch: nat, a: Answer, h: Hidden)
    requires Lawful(w, p, cache, epoch, a, h) && (p.pc.GetKro? || p.pc.PatchAnnotation?)
    ensures a.GotKro? ==> p.key in w.kros && a.kro.deleting == w.kros[p.key].deleting
  {
  }

  lemma UndecidedIsNotCreating(w: World, p: Pass)
    requires PassSafe(w, p) && p.pc.LoadConfig?
    ensures p.mode != Creating
  {
  }

  lemma PlainEffectKeepsFlux(w: World, p: Pass, a: Answer, h: Hidden)
    requires p.pc.GetKro? || p.pc.PatchAnnotation? || p.pc.LoadConfig?
    ensures NoneFading(Effect(w, p, a, h), p.key) == NoneFading(w, p.key)
  {
    hide PutKro;
  }

  ghost predicate Untampered(r: Run) {
    forall i :: 0 <= i < |r.actions| && i < |r.states| && r.actions[i].Environment? ==>
      !Tampers(r.states[i].world, r.actions[i].e)
  }

  lemma StepIsIntact(s: System, a: Action, k: Key)
    requires Safe(s) && IntactAt(s, k) && s.config.history != [] && Enabled(s, a)
    requires a.Environment? ==> !Tampers(s.world, a.e)
    ensures IntactAt(Apply(s, a), k)
  {
    hide MovesOn, Stays, Accesses;
    hide StoreSafe, PassSafe, StoreIntact, PassIntact, Kindly, SameTenant, Effect, Act, Passes.Step, Lawful, Permitted,
      Tampers, Observe, Settle, KeepsReplicas;
    assert SafeAt(s, k);
    match a
    case Environment(e) =>
      EnvironmentIsKind(s.world, e, k, s.needsWorkload);
      OthersAreIntact(s, Act(s.world, e), k);
    case PassCalls(j, answer, h) =>
      if j == k {
        CallIsIntact(s, k, answer, h);
      } else {
        assert SafeAt(s, j);
        var v := Effect(s.world, s.passes[j], answer, h);
        PassesAreIsolated(s.world, s.passes[j], answer, h, k);
        EffectKeepsReplicas(s.world, s.passes[j], answer, h);
        OthersAreKind(s.world, v, k);
        OthersAreIntact(s, v, k);
      }
    case PassStarts(j) => FreshPassIsIntact(s.world, StartPass(k, s.time, s.needsWorkload));
    case _ =>
  }

  lemma OthersAreIntact(s: System, v: World, k: Key)
    requires SafeAt(s, k) && IntactAt(s, k) && Kindly(s.world, v, k)
    ensures IntactAt(s.(world := v), k)
  {
    hide StoreSafe, PassSafe, StoreIntact, PassIntact, Kindly;
    KindKeepsStore(s.world, v, k, s.needsWorkload);
    if k in s.passes { KindKeepsPass(s.world, v, s.passes[k]); }
  }

  lemma FreshPassIsIntact(w: World, p: Pass)
    requires p == StartPass(p.key, p.now, p.needsWorkload)
    ensures PassIntact(w, p)
  {
  }

  lemma InitialIsIntact(s: System, k: Key)
    requires Initial(s)
    ensures IntactAt(s, k)
  {
  }

  lemma {:induction false} RunsAreIntact(r: Run, i: nat, k: Key)
    requires ValidRun(r) && Untampered(r) && i < |r.states|
    ensures IntactAt(r.states[i], k)
  {
    hide IntactAt, Initial, Apply, Enabled, Tampers;
    if i == 0 {
      InitialIsIntact(r.states[0], k);
    } else {
      RunsAreIntact(r, i - 1, k);
      RunStatesAreReachable(r, i - 1);
      ReachableIsSafe(r.states[i - 1]);
      StepIsIntact(r.states[i - 1], r.actions[i - 1], k);
    }
  }

  /**
   Referential integrity, in every state of every run without tampering, aborted passes and version
   switches included. The URL of a chart source carries the scheme, and the pull secret it names is in the
   tenant's namespace; a main
   release finds its namespace, the kubeconfig that it mounts and every image pull secret of its values on the
   workload cluster; and until the Kro is deleted, it has its chart source.
   */
  lemma ReferentialIntegrity(r: Run, i: nat, k: Key)
    requires ValidRun(r) && Untampered(r) && i < |r.states|
    ensures var w := r.states[i].world; var oci, main := RefOf(Oci, Tenant(k)), RefOf(Main, Tenant(k));
      && (oci in w.flux ==>
            && w.flux[oci].spec.OCISpec? && Versions.OCI_SCHEME <= w.flux[oci].spec.url
            && (w.flux[oci].spec.secretRef.Some? ==>
                  SecretRef(PlatformHost, Tenant(k), w.flux[oci].spec.secretRef.value) in w.secrets))
      && (main in w.flux ==>
            && IsMain(w.flux[main].spec, Tenant(k)) && w.flux[main].spec.chartRef == oci
            && Home(w, k) in w.namespaces
            && w.flux[main].spec.postRenderer.MountKubeconfig?
            && SecretRef(WorkloadHost(Home(w, k)), w.flux[main].spec.targetNamespace,
                 w.flux[main].spec.postRenderer.secret) in w.secrets
            && (w.flux[main].spec.values.Some? && w.flux[main].spec.values.value.raw != "" ==>
                  var parsed := w.flux[main].spec.values.value.pullSecrets;
                  && parsed.Success?
                  && forall n <- parsed.value :: SecretRef(WorkloadHost(Home(w, k)), KroSystem, n) in w.secrets)
            && (k in w.kros && !w.kros[k].deleting ==> oci in w.flux))
  {
    hide ValidRun, Untampered;
    RunsAreIntact(r, i, k);
    hide PassIntact;
  }

  /**
   In every state of every run without tampering, every release does its own part: the one that installs the
   CRDs, and keeps nothing else, is that named for it; the main one leaves them alone and mounts the kubeconfig.
   */
  lemma ReleasesDoTheirPart(r: Run, i: nat, ref: FluxRef)
    requires ValidRun(r) && Untampered(r) && i < |r.states|
    requires ref in r.states[i].world.flux && ref.kind == HelmRelease
    ensures var spec := r.states[i].world.flux[ref].spec;
      && spec.ReleaseSpec?
      && (spec.crds == CreateReplace <==> ref.name == "kro-mcp-crds-helm-release")
      && (spec.postRenderer == KeepOnlyCRDs <==> ref.name == "kro-mcp-crds-helm-release")
      && (spec.crds == Skip <==> ref.name == "kro-helm-release")
      && (spec.postRenderer == MountKubeconfig("kro-mcp-kubeconfig") <==> ref.name == "kro-helm-release")
  {
    hide ValidRun, Untampered, Reachable;
    RunStatesAreReachable(r, i);
    OnlyManagedObjects(r.states[i], ref);
    RunsAreIntact(r, i, ref.namespace.key);
    hide PassIntact, Provided;
    ManagedReleases(r.states[i].world, ref);
  }

  lemma ManagedReleases(w: World, ref: FluxRef)
    requires ref.namespace.Tenant? && ref in DeleteTargets(ref.namespace) && ref.kind == HelmRelease
    requires ref in w.flux && ReleaseIntact(w, ref.namespace.key) && CrdsIntact(w, ref.namespace.key)
    ensures ref.name == "kro-helm-release" || ref.name == "kro-mcp-crds-helm-release"
    ensures ref.name == "kro-helm-release" ==> IsMain(w.flux[ref].spec, ref.namespace)
    ensures ref.name == "kro-mcp-crds-helm-release" ==> IsCrds(w.flux[ref].spec, ref.namespace)
    ensures "kro-helm-release" != "kro-mcp-crds-helm-release"
  {
    TargetsAreRefs(ref.namespace.key);
    assert |HELM_RELEASE_NAME| != |MCP_HELM_RELEASE_NAME|;
  }
}
