/**
 No orphans: whatever fails and whenever a deletion arrives, a Flux object of a Kro never outlives
 this operator's finalizer on that Kro, nor the cluster access needed to remove it properly.
 */
module Safety {
  import opened Wrappers
  import opened Resources
  import opened Flux
  import opened Passes
  import opened Worlds
  import opened Operator
  import Statuses

  // ---------- the invariant ----------

  ghost predicate HasFinalizer(w: World, k: Key) { k in w.kros && w.kros[k].finalizer }

  ghost predicate HasRequest(w: World, k: Key) { !NoRequests(w, k) }

  /** A deletion is under way if there is any access left to revoke. */
  ghost predicate Doomed(w: World, k: Key) {
    HasRequest(w, k) ==> k in w.kros && w.kros[k].deleting
  }

  ghost predicate NotRevoking(w: World, k: Key) {
    && (RequestRef(k, MCP) in w.requests ==> Live(w, k, MCP))
    && (RequestRef(k, Workload) in w.requests ==> Live(w, k, Workload))
  }

  ghost predicate StoreSafe(w: World, k: Key, needs: bool) {
    && (!NoFlux(w, k) ==> HasFinalizer(w, k) && AllLive(w, k, needs))
    && (HasRequest(w, k) ==> HasFinalizer(w, k))
    && (!NotRevoking(w, k) ==> w.kros[k].deleting)
    && (!needs ==> RequestRef(k, Workload) !in w.requests)
  }

  ghost predicate Installing(w: World, p: Pass) {
    p.mode == Creating && HasFinalizer(w, p.key) && NotRevoking(w, p.key)
  }

  ghost predicate Dismantling(w: World, p: Pass) {
    p.mode == Deleting && Doomed(w, p.key)
  }

  /** The objects before position `i` are gone unless the pass knows that something lingers. */
  ghost predicate GoneBefore(w: World, p: Pass, i: nat, ref: FluxRef) {
    && i < 3 && ref == DeleteTargets(Tenant(p.key))[i]
    && (!p.lingering ==> (i > 0 ==> Gone(w, p.key, Oci)) && (i > 1 ==> Gone(w, p.key, Main)))
  }

  /** Where tasks of tenant `k` write. */
  ghost predicate OwnTask(k: Key, t: Task) {
    t.PutSecret? ==>
      || (t.target.host == WorkloadHost(k) && t.target.namespace == KroSystem)
      || (t.target.host == PlatformHost && t.target.namespace == Tenant(k))
  }

  ghost predicate OwnPlan(k: Key, task: Task, rest: seq<Task>) {
    OwnTask(k, task) && forall t <- rest :: OwnTask(k, t)
  }

  ghost predicate PassSafe(w: World, p: Pass) {
    var k := p.key;
    match p.pc
    case GetKro => p.mode == Undecided
    case PatchAnnotation => p.mode == Undecided
    case LoadConfig => p.mode == Undecided && (if p.obj.deleting then Doomed(w, k) else NotRevoking(w, k))
    case GetForFinalizer => p.mode == Creating && NotRevoking(w, k)
    case RecreateKro => p.mode == Creating && NotRevoking(w, k)
    case UpdateFinalizer => p.mode == Creating && NotRevoking(w, k)
    case CheckRequest(c) => Dismantling(w, p) && (c == Workload ==> p.needsWorkload && Live(w, k, MCP))
    case ReconcileAccess => Installing(w, p) || (Dismantling(w, p) && AllLive(w, k, p.needsWorkload))
    case GetCluster(_) => WithAccess(w, p)
    case GetRequest(_) => WithAccess(w, p)
    case ResolveNamespace => WithAccess(w, p)
    case Look(task, rest) => WithAccess(w, p) && p.mode == Creating && OwnPlan(k, task, rest)
    case Write(task, rest, _) => WithAccess(w, p) && p.mode == Creating && OwnPlan(k, task, rest)
    case CountRGDs => WithAccess(w, p) && p.mode == Deleting
    case DeleteObject(i, ref) => WithAccess(w, p) && p.mode == Deleting && GoneBefore(w, p, i, ref)
    case ConfirmGone(i, ref) => WithAccess(w, p) && p.mode == Deleting && GoneBefore(w, p, i, ref)
    case RevokeAccess => Dismantling(w, p) && NoFlux(w, k)
    case RemoveFinalizer => p.mode == Deleting && NoFlux(w, k) && NoRequests(w, k)
    case PatchStatus(_) => true
    case Done(_) => true
  }

  ghost predicate WithAccess(w: World, p: Pass) {
    p.delay == 0 && AllLive(w, p.key, p.needsWorkload) && (Installing(w, p) || Dismantling(w, p))
  }

  ghost predicate SafeAt(s: System, k: Key) {
    && StoreSafe(s.world, k, s.needsWorkload)
    && (k in s.passes ==>
          s.passes[k].key == k && s.passes[k].needsWorkload == s.needsWorkload && PassSafe(s.world, s.passes[k]))
  }

  ghost predicate Safe(s: System) { forall k :: SafeAt(s, k) }

  // ---------- a pass disturbs its own tenant only ----------

  /** Nothing that belongs to tenant `k` differs between the two states. */
  ghost predicate SameTenant(w: World, v: World, k: Key) {
    && KroAt(w, k) == KroAt(v, k)
    && (forall which :: var r := RefOf(which, Tenant(k));
          (r in w.flux <==> r in v.flux) && (r in w.flux ==> w.flux[r] == v.flux[r]))
    && (forall c :: var r := RequestRef(k, c);
          (r in w.requests <==> r in v.requests) && (r in w.requests ==> w.requests[r] == v.requests[r]))
    && (forall r: SecretRef :: r.host == PlatformHost && r.namespace == Tenant(k) ==> SameSecret(w, v, r))
    && RGDs(w, k) == RGDs(v, k) && w.homes == v.homes && w.namespaces <= v.namespaces
  }

  ghost predicate SameSecret(w: World, v: World, r: SecretRef) {
    (r in w.secrets <==> r in v.secrets) && (r in w.secrets ==> w.secrets[r] == v.secrets[r])
  }

  /** Nor does anything on the workload cluster that `k` was placed on. */
  ghost predicate SameWorkload(w: World, v: World, k: Key) {
    && (forall r: SecretRef :: r.host == WorkloadHost(Home(w, k)) ==> SameSecret(w, v, r))
    && (Home(w, k) in w.namespaces <==> Home(w, k) in v.namespaces)
  }

  lemma TargetsAreRefs(k: Key)
    ensures DeleteTargets(Tenant(k))
      == [RefOf(Oci, Tenant(k)), RefOf(Main, Tenant(k)), RefOf(Crds, Tenant(k))]
    ensures forall r :: r in DeleteTargets(Tenant(k)) <==> exists which :: r == RefOf(which, Tenant(k))
  {
    var t := DeleteTargets(Tenant(k));
    assert t[0] == RefOf(Oci, Tenant(k));
    assert t[1] == RefOf(Main, Tenant(k));
    assert t[2] == RefOf(Crds, Tenant(k));
  }

  // ---------- the pass's own calls ----------

  lemma {:induction false} CopiesAreOwn(k: Key, names: seq<string>)
    ensures forall t <- CopyImageSecrets(k, names) :: OwnTask(k, t)
  {
    if names != [] { CopiesAreOwn(k, names[1..]); }
  }

  lemma PlanIsOwn(k: Key, v: KroVersion, ctx: ClusterContext)
    ensures forall t <- Plan(k, v, ctx) :: OwnTask(k, t)
  {
    if v.helmValues.Some? && v.helmValues.value.pullSecrets.Success? {
      CopiesAreOwn(k, v.helmValues.value.pullSecrets.value);
    }
  }

  ghost predicate SafeHere(w: World, p: Pass) {
    StoreSafe(w, p.key, p.needsWorkload) && PassSafe(w, p)
  }

  /** Pass `p` has become `q`, in state `w`. */
  ghost predicate SafeAfter(p: Pass, w: World, q: Pass) {
    q.key == p.key && q.needsWorkload == p.needsWorkload && SafeHere(w, q)
  }

  lemma GetKroIsSafe(w: World, p: Pass, a: Answer)
    requires SafeHere(w, p) && p.pc.GetKro? && (a.Failed? || ReadsKro(w, p.key, a))
    ensures SafeAfter(p, w, AfterGetKro(p, a))
  {
  }

  lemma PatchAnnotationIsSafe(w: World, p: Pass, a: Answer)
    requires SafeHere(w, p) && p.pc.PatchAnnotation? && (a.Failed? || LawfulPatchAnnotation(w, p.key, a))
    ensures SafeAfter(p, StoreAnswer(w, p.key, a), AfterPatchAnnotation(p, a))
  {
  }

  lemma LoadConfigIsSafe(w: World, p: Pass, a: Answer)
    requires SafeHere(w, p) && p.pc.LoadConfig?
    ensures SafeAfter(p, w, AfterLoadConfig(p, a))
  {
    hide FailProgressing;
  }

  lemma FinalizerIsSafe(w: World, p: Pass, a: Answer)
    requires SafeHere(w, p) && p.pc.GetForFinalizer? && (a.Failed? || ReadsKro(w, p.key, a))
    ensures SafeAfter(p, w, AfterGetForFinalizer(p, a))
  {
    hide FailProgressing;
  }

  lemma UpdateFinalizerIsSafe(w: World, p: Pass, a: Answer)
    requires SafeHere(w, p) && p.pc.UpdateFinalizer? && (a.Failed? || LawfulUpdateFinalizer(w, p, a))
    ensures SafeAfter(p, StoreAnswer(w, p.key, a), AfterUpdateFinalizer(p, a))
  {
    hide FailProgressing;
  }

  lemma RecreateIsSafe(w: World, p: Pass)
    requires SafeHere(w, p) && p.pc.RecreateKro?
    ensures SafeAfter(p, w, FailProgressing(p, "failed to add finalizer"))
  {
    hide FailProgressing;
  }

  lemma CheckRequestIsSafe(w: World, p: Pass, a: Answer)
    requires SafeHere(w, p) && p.pc.CheckRequest?
    requires a.Failed? || ReadsRequest(w, RequestRef(p.key, p.pc.cluster), a)
    ensures SafeAfter(p, w, AfterCheckRequest(p, p.pc.cluster, a))
  {
    hide FailProgressing, WithAccess, Installing, Gone, OwnTask;
  }

  lemma MakingIsSafe(w: World, p: Pass, a: Answer, h: Hidden)
    requires SafeHere(w, p) && p.pc.ReconcileAccess? && LawfulReconcileAccess(w, p, a, h)
    ensures var v := MakeRequests(w, p.key, h.first);
      && StoreSafe(v, p.key, p.needsWorkload)
      && (Installing(w, p) ==> Installing(v, p))
      && (Dismantling(w, p) && AllLive(w, p.key, p.needsWorkload) ==>
            Dismantling(v, p) && AllLive(v, p.key, p.needsWorkload))
      && (Installing(w, p) && a.Delay? && a.seconds == 0 ==> AllLive(v, p.key, p.needsWorkload))
      && (a.Delay? ==> a.seconds >= 0)
  {
  }

  lemma ReconcileAccessIsSafe(w: World, p: Pass, a: Answer, h: Hidden)
    requires SafeHere(w, p) && p.pc.ReconcileAccess? && LawfulReconcileAccess(w, p, a, h)
    ensures SafeAfter(p, MakeRequests(w, p.key, h.first), AfterReconcileAccess(p, a))
  {
    hide AfterReconcileAccess, MakeRequests, StoreSafe, LawfulReconcileAccess;
    MakingIsSafe(w, p, a, h);
    var v := MakeRequests(w, p.key, h.first);
    if p.mode == Creating {
      assert Installing(v, p);
    } else {
      assert Dismantling(v, p);
    }
  }

  lemma GetClusterIsSafe(w: World, p: Pass, a: Answer)
    requires SafeHere(w, p) && p.pc.GetCluster?
    ensures SafeAfter(p, w, AfterGetCluster(p, p.pc.cluster, a))
  {
    hide FailClusters, Return, Statuses.MarkProgressing, Statuses.MarkTerminating;
    if p.mode == Creating {
      assert Installing(w, p);
    } else {
      assert Dismantling(w, p);
    }
  }

  lemma GetRequestIsSafe(w: World, p: Pass, a: Answer)
    requires SafeHere(w, p) && p.pc.GetRequest?
    ensures SafeAfter(p, w, AfterGetRequest(p, p.pc.cluster, a))
  {
    hide FailClusters, Return, Statuses.MarkProgressing, Statuses.MarkTerminating;
    if p.mode == Creating {
      assert Installing(w, p);
    } else {
      assert Dismantling(w, p);
    }
  }

  /** Access is held by the pass, not by the registers it fills along the way. */
  lemma AccessCarriesOver(w: World, p: Pass, q: Pass)
    requires WithAccess(w, p) && Keeps(p, q) && q.mode == p.mode && q.delay == 0
    ensures WithAccess(w, q) && (q.mode == Creating || q.mode == Deleting)
  {
  }

  lemma ResolveNamespaceIsSafe(w: World, p: Pass, a: Answer)
    requires SafeHere(w, p) && p.pc.ResolveNamespace?
    ensures SafeAfter(p, w, AfterResolveNamespace(p, a))
  {
    hide Fail, BeginTeardown, BeginCreate, StoreSafe, Plan, WithAccess, Installing, Dismantling, OwnTask;
    var q := AfterResolveNamespace(p, a);
    AccessHasNoDelay(w, p);
    AccessCarriesOver(w, p, q);
    TargetsAreRefs(p.key);
    PlanIsOwn(p.key, BeginCreate(p).version, p.ctx);
  }

  lemma AccessHasNoDelay(w: World, p: Pass)
    requires WithAccess(w, p)
    ensures p.delay == 0
  {
  }

  /** While a pass holds access, changes to other stores than Kros and requests do no harm. */
  lemma AccessCoversChanges(w: World, v: World, p: Pass)
    requires SafeHere(w, p) && WithAccess(w, p)
    requires v.kros == w.kros && v.requests == w.requests
    requires p.mode == Deleting ==> (NoFlux(w, p.key) ==> NoFlux(v, p.key))
    ensures StoreSafe(v, p.key, p.needsWorkload) && WithAccess(v, p)
  {
    hide PassSafe;
  }

  lemma LookIsSafe(w: World, p: Pass, a: Answer)
    requires SafeHere(w, p) && p.pc.Look?
    ensures SafeAfter(p, EffectOfLook(w, p, p.pc.task, a), AfterLook(p, p.pc.task, p.pc.rest, a))
  {
    hide AfterLook, StoreSafe;
    AccessCoversChanges(w, EffectOfLook(w, p, p.pc.task, a), p);
  }

  lemma WriteIsSafe(w: World, p: Pass, a: Answer)
    requires SafeHere(w, p) && p.pc.Write?
    ensures SafeAfter(p, EffectOfWrite(w, p, p.pc.task, a), AfterWrite(p, p.pc.task, p.pc.rest, a))
  {
    hide AfterWrite, Written, StoreSafe;
    var v := EffectOfWrite(w, p, p.pc.task, a);
    assert v.kros == w.kros && v.requests == w.requests;
    AccessCoversChanges(w, v, p);
  }

  lemma CountRGDsIsSafe(w: World, p: Pass, a: Answer)
    requires SafeHere(w, p) && p.pc.CountRGDs?
    ensures SafeAfter(p, w, AfterCountRGDs(p, a))
  {
    hide FailTerminating, Return, BeginTeardown, StoreSafe;
    TargetsAreRefs(p.key);
  }

  lemma DeletingIsSafe(w: World, p: Pass, a: Answer)
    requires SafeHere(w, p) && p.pc.DeleteObject?
    ensures var v := EffectOfDelete(w, p.pc.ref, a);
      && StoreSafe(v, p.key, p.needsWorkload) && WithAccess(v, p)
      && GoneBefore(v, p, p.pc.i, p.pc.ref)
  {
    var v := EffectOfDelete(w, p.pc.ref, a);
    assert v.kros == w.kros && v.requests == w.requests;
    assert forall r :: r in v.flux ==> r in w.flux;
    hide EffectOfDelete;
    AccessCoversChanges(w, v, p);
  }

  lemma DeleteObjectIsSafe(w: World, p: Pass, a: Answer)
    requires SafeHere(w, p) && p.pc.DeleteObject?
    ensures SafeAfter(p, EffectOfDelete(w, p.pc.ref, a), AfterDeleteObject(p, p.pc.i, p.pc.ref, a))
  {
    hide FailTerminating, EffectOfDelete, StoreSafe;
    DeletingIsSafe(w, p, a);
  }

  lemma ConfirmGoneIsSafe(w: World, p: Pass, a: Answer)
    requires SafeHere(w, p) && p.pc.ConfirmGone? && (a.Failed? || ReadsFlux(w, p.pc.ref, a))
    ensures SafeAfter(p, w, AfterConfirmGone(p, p.pc.i, a))
  {
    hide Return, StoreSafe;
    TargetsAreRefs(p.key);
  }

  lemma RevokingIsSafe(w: World, p: Pass, a: Answer, h: Hidden)
    requires SafeHere(w, p) && p.pc.RevokeAccess? && LawfulRevoke(w, p.key, a, h)
    ensures var v := RevokeRequests(w, p.key, h);
      && StoreSafe(v, p.key, p.needsWorkload)
      && Dismantling(v, p) && NoFlux(v, p.key)
      && (a.Delay? && a.seconds <= 0 ==> NoRequests(v, p.key))
  {
  }

  lemma RevokeAccessIsSafe(w: World, p: Pass, a: Answer, h: Hidden)
    requires SafeHere(w, p) && p.pc.RevokeAccess? && LawfulRevoke(w, p.key, a, h)
    ensures SafeAfter(p, RevokeRequests(w, p.key, h), AfterRevokeAccess(p, a))
  {
    hide FailTerminating, Return, RevokeRequests, StoreSafe, NoFlux, NoRequests, Dismantling, WithAccess;
    RevokingIsSafe(w, p, a, h);
  }

  lemma RemoveFinalizerIsSafe(w: World, p: Pass, a: Answer)
    requires SafeHere(w, p) && p.pc.RemoveFinalizer? && (a.Failed? || LawfulRemoveFinalizer(w, p, a))
    ensures SafeAfter(p, StoreAnswer(w, p.key, a), AfterRemoveFinalizer(p, a))
  {
    hide FailTerminating, Return;
  }

  lemma PatchStatusIsSafe(w: World, p: Pass, a: Answer)
    requires SafeHere(w, p) && p.pc.PatchStatus? && (a.Failed? || LawfulPatchStatus(w, p.key, a))
    ensures SafeAfter(p, EffectOfPatchStatus(w, p, a), AfterPatchStatus(p, p.pc.result, a))
  {
    hide StoreSafe, PutKro, Benign;
    if p.key in w.kros {
      var kro := Bumped(w, w.kros[p.key].(status := p.obj.status));
      EditingIsBenign(w, p.key, kro, p.key);
      BenignKeepsStore(w, PutKro(w, p.key, kro), p.key, p.needsWorkload);
    }
  }

  // ---------- everybody's steps ----------

  lemma FirstCallsAreSafe(w: World, p: Pass, cache: Option<ProviderConfig>, epoch: nat, a: Answer, h: Hidden)
    requires SafeHere(w, p) && Lawful(w, p, cache, epoch, a, h)
    requires p.pc.GetKro? || p.pc.PatchAnnotation? || p.pc.LoadConfig? || p.pc.GetForFinalizer? || p.pc.RecreateKro?
      || p.pc.UpdateFinalizer?
    ensures SafeAfter(p, Effect(w, p, a, h), Passes.Step(p, a))
  {
    hide PassSafe, StoreSafe, StoreAnswer, MakeRequests, EffectOfLook, EffectOfWrite, EffectOfDelete, RevokeRequests,
      EffectOfPatchStatus, LawfulPatchAnnotation, LawfulUpdateFinalizer, LawfulReconcileAccess, LawfulLook, LawfulWrite,
      LawfulCount, LawfulDelete, LawfulRevoke, LawfulRemoveFinalizer, LawfulPatchStatus, ReadsKro, ReadsRequest,
      ReadsFlux;
    hide AfterGetKro, AfterPatchAnnotation, AfterLoadConfig, AfterGetForFinalizer, AfterUpdateFinalizer,
      AfterCheckRequest, AfterReconcileAccess, AfterGetCluster, AfterGetRequest, AfterResolveNamespace,
      AfterLook, AfterWrite, AfterCountRGDs, AfterDeleteObject, AfterConfirmGone, AfterRevokeAccess,
      AfterRemoveFinalizer, AfterPatchStatus, FailProgressing;
    match p.pc
    case GetKro => GetKroIsSafe(w, p, a);
    case PatchAnnotation => PatchAnnotationIsSafe(w, p, a);
    case LoadConfig => LoadConfigIsSafe(w, p, a);
    case GetForFinalizer => FinalizerIsSafe(w, p, a);
    case RecreateKro => RecreateIsSafe(w, p);
    case UpdateFinalizer => UpdateFinalizerIsSafe(w, p, a);
  }

  lemma AccessCallsAreSafe(w: World, p: Pass, cache: Option<ProviderConfig>, epoch: nat, a: Answer, h: Hidden)
    requires SafeHere(w, p) && Lawful(w, p, cache, epoch, a, h)
    requires p.pc.CheckRequest? || p.pc.ReconcileAccess? || p.pc.GetCluster? || p.pc.GetRequest?
      || p.pc.ResolveNamespace?
    ensures SafeAfter(p, Effect(w, p, a, h), Passes.Step(p, a))
  {
    hide PassSafe, StoreSafe, StoreAnswer, MakeRequests, EffectOfLook, EffectOfWrite, EffectOfDelete, RevokeRequests,
      EffectOfPatchStatus, LawfulPatchAnnotation, LawfulUpdateFinalizer, LawfulReconcileAccess, LawfulLook, LawfulWrite,
      LawfulCount, LawfulDelete, LawfulRevoke, LawfulRemoveFinalizer, LawfulPatchStatus, ReadsKro, ReadsRequest,
      ReadsFlux;
    hide AfterGetKro, AfterPatchAnnotation, AfterLoadConfig, AfterGetForFinalizer, AfterUpdateFinalizer,
      AfterCheckRequest, AfterReconcileAccess, AfterGetCluster, AfterGetRequest, AfterResolveNamespace,
      AfterLook, AfterWrite, AfterCountRGDs, AfterDeleteObject, AfterConfirmGone, AfterRevokeAccess,
      AfterRemoveFinalizer, AfterPatchStatus, FailProgressing;
    match p.pc
    case CheckRequest(_) => CheckRequestIsSafe(w, p, a);
    case ReconcileAccess => ReconcileAccessIsSafe(w, p, a, h);
    case GetCluster(_) => GetClusterIsSafe(w, p, a);
    case GetRequest(_) => GetRequestIsSafe(w, p, a);
    case ResolveNamespace => ResolveNamespaceIsSafe(w, p, a);
  }

  lemma LookCallIsSafe(w: World, p: Pass, cache: Option<ProviderConfig>, epoch: nat, a: Answer, h: Hidden)
    requires SafeHere(w, p) && Lawful(w, p, cache, epoch, a, h) && p.pc.Look?
    ensures SafeAfter(p, Effect(w, p, a, h), Passes.Step(p, a))
  {
    hide PassSafe, StoreSafe, MovesOn, EffectOfLook, LawfulLook, AfterLook;
    LookIsSafe(w, p, a);
  }

  lemma WriteCallIsSafe(w: World, p: Pass, cache: Option<ProviderConfig>, epoch: nat, a: Answer, h: Hidden)
    requires SafeHere(w, p) && Lawful(w, p, cache, epoch, a, h) && p.pc.Write?
    ensures SafeAfter(p, Effect(w, p, a, h), Passes.Step(p, a))
  {
    hide PassSafe, StoreSafe, MovesOn, EffectOfWrite, LawfulWrite, AfterWrite;
    WriteIsSafe(w, p, a);
  }

  lemma CountCallIsSafe(w: World, p: Pass, cache: Option<ProviderConfig>, epoch: nat, a: Answer, h: Hidden)
    requires SafeHere(w, p) && Lawful(w, p, cache, epoch, a, h) && p.pc.CountRGDs?
    ensures SafeAfter(p, Effect(w, p, a, h), Passes.Step(p, a))
  {
    hide PassSafe, StoreSafe, MovesOn, LawfulCount, AfterCountRGDs;
    CountRGDsIsSafe(w, p, a);
  }

  lemma DeleteCallIsSafe(w: World, p: Pass, cache: Option<ProviderConfig>, epoch: nat, a: Answer, h: Hidden)
    requires SafeHere(w, p) && Lawful(w, p, cache, epoch, a, h) && p.pc.DeleteObject?
    ensures SafeAfter(p, Effect(w, p, a, h), Passes.Step(p, a))
  {
    hide PassSafe, StoreSafe, MovesOn, EffectOfDelete, LawfulDelete, AfterDeleteObject;
    DeleteObjectIsSafe(w, p, a);
  }

  lemma LastCallsAreSafe(w: World, p: Pass, cache: Option<ProviderConfig>, epoch: nat, a: Answer, h: Hidden)
    requires SafeHere(w, p) && Lawful(w, p, cache, epoch, a, h)
    requires p.pc.ConfirmGone? || p.pc.RevokeAccess? || p.pc.RemoveFinalizer? || p.pc.PatchStatus?
    ensures SafeAfter(p, Effect(w, p, a, h), Passes.Step(p, a))
  {
    hide MovesOn, Stays, Accesses;
    hide PassSafe, StoreSafe, StoreAnswer, MakeRequests, EffectOfLook, EffectOfWrite, EffectOfDelete, RevokeRequests,
      EffectOfPatchStatus, LawfulPatchAnnotation, LawfulUpdateFinalizer, LawfulReconcileAccess, LawfulLook, LawfulWrite,
      LawfulCount, LawfulDelete, LawfulRevoke, LawfulRemoveFinalizer, LawfulPatchStatus, ReadsKro, ReadsRequest,
      ReadsFlux;
    hide AfterGetKro, AfterPatchAnnotation, AfterLoadConfig, AfterGetForFinalizer, AfterUpdateFinalizer,
      AfterCheckRequest, AfterReconcileAccess, AfterGetCluster, AfterGetRequest, AfterResolveNamespace,
      AfterLook, AfterWrite, AfterCountRGDs, AfterDeleteObject, AfterConfirmGone, AfterRevokeAccess,
      AfterRemoveFinalizer, AfterPatchStatus, FailProgressing;
    match p.pc
    case ConfirmGone(_, _) => ConfirmGoneIsSafe(w, p, a);
    case RevokeAccess => RevokeAccessIsSafe(w, p, a, h);
    case RemoveFinalizer => RemoveFinalizerIsSafe(w, p, a);
    case PatchStatus(_) => PatchStatusIsSafe(w, p, a);
  }

  lemma OwnCallIsSafe(w: World, p: Pass, cache: Option<ProviderConfig>, epoch: nat, a: Answer, h: Hidden)
    requires SafeHere(w, p) && Lawful(w, p, cache, epoch, a, h)
    ensures SafeAfter(p, Effect(w, p, a, h), Passes.Step(p, a))
  {
    LawfulIsNotOver(w, p, cache, epoch, a, h);
    hide SafeHere, SafeAfter, Effect, Passes.Step, Lawful;
    match p.pc
    case Look(_, _) => LookCallIsSafe(w, p, cache, epoch, a, h);
    case Write(_, _, _) => WriteCallIsSafe(w, p, cache, epoch, a, h);
    case CountRGDs => CountCallIsSafe(w, p, cache, epoch, a, h);
    case DeleteObject(_, _) => DeleteCallIsSafe(w, p, cache, epoch, a, h);
    case ConfirmGone(_, _) => LastCallsAreSafe(w, p, cache, epoch, a, h);
    case RevokeAccess => LastCallsAreSafe(w, p, cache, epoch, a, h);
    case RemoveFinalizer => LastCallsAreSafe(w, p, cache, epoch, a, h);
    case PatchStatus(_) => LastCallsAreSafe(w, p, cache, epoch, a, h);
    case CheckRequest(_) => AccessCallsAreSafe(w, p, cache, epoch, a, h);
    case ReconcileAccess => AccessCallsAreSafe(w, p, cache, epoch, a, h);
    case GetCluster(_) => AccessCallsAreSafe(w, p, cache, epoch, a, h);
    case GetRequest(_) => AccessCallsAreSafe(w, p, cache, epoch, a, h);
    case ResolveNamespace => AccessCallsAreSafe(w, p, cache, epoch, a, h);
    case _ => FirstCallsAreSafe(w, p, cache, epoch, a, h);
  }

  lemma CallIsSafe(s: System, k: Key, a: Answer, h: Hidden)
    requires k in s.passes && SafeAt(s, k)
    requires Lawful(s.world, s.passes[k], s.config.stored.config, s.config.epoch, a, h)
    ensures SafeAt(Calls(s, k, a, h), k)
  {
    hide PassSafe, StoreSafe, Effect, Passes.Step, Lawful;
    OwnCallIsSafe(s.world, s.passes[k], s.config.stored.config, s.config.epoch, a, h);
  }

  lemma LawfulIsNotOver(w: World, p: Pass, cache: Option<ProviderConfig>, epoch: nat, a: Answer, h: Hidden)
    requires Lawful(w, p, cache, epoch, a, h)
    ensures !p.pc.Done?
  {
    hide LawfulPatchAnnotation, LawfulUpdateFinalizer, LawfulReconcileAccess, LawfulLook, LawfulWrite,
      LawfulCount, LawfulDelete, LawfulRevoke, LawfulRemoveFinalizer, LawfulPatchStatus, ReadsKro, ReadsRequest,
      ReadsFlux;
  }

  // ---------- everybody else's steps ----------

  /** How tenant `k` may be affected by others: it gains nothing and loses no access or finalizer. */
  ghost predicate Benign(w: World, v: World, k: Key) {
    && (HasFinalizer(w, k) ==> HasFinalizer(v, k) && (w.kros[k].deleting ==> v.kros[k].deleting))
    && (Live(w, k, MCP) ==> Live(v, k, MCP))
    && (Live(w, k, Workload) ==> Live(v, k, Workload))
    && (RequestRef(k, MCP) in v.requests ==> RequestRef(k, MCP) in w.requests)
    && (RequestRef(k, Workload) in v.requests ==> RequestRef(k, Workload) in w.requests)
    && (Gone(w, k, Oci) ==> Gone(v, k, Oci))
    && (Gone(w, k, Main) ==> Gone(v, k, Main))
    && (Gone(w, k, Crds) ==> Gone(v, k, Crds))
  }

  lemma PuttingIsBenign(w: World, j: Key, kro: Kro, k: Key)
    requires j == k && HasFinalizer(w, k) ==> kro.finalizer && (w.kros[k].deleting ==> kro.deleting)
    ensures Benign(w, PutKro(w, j, kro), k)
  {
  }

  lemma FluxChangesAreBenign(w: World, ref: FluxRef, o: FluxObject, k: Key)
    requires ref in w.flux
    ensures Benign(w, Tick(w.(flux := w.flux[ref := o])), k)
    ensures Benign(w, Tick(w.(flux := w.flux - {ref})), k)
    ensures Benign(w, w, k)
  {
  }

  lemma RequestChangesAreBenign(w: World, r: RequestRef, o: AccessRequest, k: Key)
    requires r in w.requests && (!w.requests[r].deleting ==> !o.deleting)
    ensures Benign(w, w.(requests := w.requests[r := o]), k)
    ensures w.requests[r].deleting ==> Benign(w, w.(requests := w.requests - {r}), k)
  {
  }

  lemma OtherChangesAreBenign(w: World, e: Env, k: Key)
    requires Permitted(w, e) && (e.SomeoneStores? || e.SomeoneDrops? || e.UserSetsRGDs?)
    ensures Benign(w, Act(w, e), k)
  {
  }

  lemma EnvironmentIsBenign(w: World, e: Env, k: Key)
    requires Permitted(w, e)
    ensures Benign(w, Act(w, e), k)
  {
    hide PutKro, Benign, HasFinalizer;
    match e
    case UserCreates(j, version, op, foreign) =>
      CreatingIsBenign(w, j, Kro(version, op, 1, w.clock + 1, false, false, foreign, EMPTY_STATUS), k);
    case UserEdits(j, version) =>
      EditingIsBenign(w, j, Bumped(w, w.kros[j].(version := version, generation := w.kros[j].generation + 1)), k);
    case UserAnnotates(j, op) => EditingIsBenign(w, j, Bumped(w, w.kros[j].(op := op)), k);
    case UserDeletes(j) =>
      EditingIsBenign(w, j, Bumped(w, w.kros[j].(deleting := true, generation := w.kros[j].generation + 1)), k);
    case ForeignReleases(j) => EditingIsBenign(w, j, Bumped(w, w.kros[j].(foreign := false)), k);
    case SomeoneDeletes(ref) => DeletionRequestsAreBenign(w, ref, k);
    case FluxReports(ref, cs) => FluxChangesAreBenign(w, ref, w.flux[ref].(conditions := cs, rv := w.clock + 1), k);
    case FluxHolds(ref) => FluxChangesAreBenign(w, ref, w.flux[ref].(held := true, rv := w.clock + 1), k);
    case FluxReleases(ref) => FluxChangesAreBenign(w, ref, w.flux[ref].(held := false, rv := w.clock + 1), k);
    case SomeoneForges(ref, spec) => FluxChangesAreBenign(w, ref, Respecified(w.flux[ref], spec, w.clock + 1), k);
    case ProviderGrants(r, name) =>
      RequestChangesAreBenign(w, r, w.requests[r].(granted := true, secretRef := Some(name)), k);
    case ProviderReleases(r) => RequestChangesAreBenign(w, r, w.requests[r], k);
    case _ => OtherChangesAreBenign(w, e, k);
  }

  lemma CreatingIsBenign(w: World, j: Key, kro: Kro, k: Key)
    requires j !in w.kros
    ensures Benign(w, PutKro(w, j, kro), k)
  {
    hide Benign;
    PuttingIsBenign(w, j, kro, k);
  }

  lemma EditingIsBenign(w: World, j: Key, kro: Kro, k: Key)
    requires j in w.kros && (w.kros[j].finalizer ==> kro.finalizer) && (w.kros[j].deleting ==> kro.deleting)
    ensures Benign(w, PutKro(w, j, kro), k)
  {
    hide Benign;
    PuttingIsBenign(w, j, kro, k);
  }

  lemma DeletionRequestsAreBenign(w: World, ref: FluxRef, k: Key)
    ensures Benign(w, RequestDeletion(w, ref), k)
  {
    if ref in w.flux {
      hide Benign;
      FluxChangesAreBenign(w, ref, Condemned(w.flux[ref], w.clock + 1), k);
    }
  }

  lemma IsolationIsBenign(w: World, v: World, k: Key)
    requires SameTenant(w, v, k)
    ensures Benign(w, v, k)
  {
    assert RequestRef(k, MCP) in w.requests <==> RequestRef(k, MCP) in v.requests;
    assert RequestRef(k, Workload) in w.requests <==> RequestRef(k, Workload) in v.requests;
    assert forall which :: RefOf(which, Tenant(k)) in w.flux <==> RefOf(which, Tenant(k)) in v.flux;
  }

  lemma BenignKeepsStore(w: World, v: World, k: Key, needs: bool)
    requires StoreSafe(w, k, needs) && Benign(w, v, k)
    ensures StoreSafe(v, k, needs)
  {
  }

  lemma BenignKeepsPass(w: World, v: World, p: Pass)
    requires SafeHere(w, p) && Benign(w, v, p.key)
    ensures SafeHere(v, p)
  {
    BenignKeepsStore(w, v, p.key, p.needsWorkload);
  }

  /** Every Flux object a pass writes or deletes is one of its own tenant's three. */
  lemma FluxChangesAreOwn(w: World, v: World, p: Pass, ref: FluxRef, k: Key)
    requires k != p.key && ref.namespace == Tenant(p.key)
    requires v.kros == w.kros && v.requests == w.requests && v.secrets == w.secrets
    requires v.namespaces == w.namespaces && v.rgds == w.rgds && v.homes == w.homes
    requires forall r :: r != ref ==> (r in w.flux <==> r in v.flux) && (r in w.flux ==> w.flux[r] == v.flux[r])
    ensures SameTenant(w, v, k)
  {
  }

  lemma KroChangesAreOwn(w: World, k: Key, kro: Kro, other: Key)
    requires k != other
    ensures SameTenant(w, PutKro(w, k, kro), other)
  {
  }

  lemma LooksAreOwn(w: World, p: Pass, task: Task, a: Answer, k: Key)
    ensures SameTenant(w, EffectOfLook(w, p, task, a), k)
  {
  }

  lemma DeletionsAreOwn(w: World, p: Pass, ref: FluxRef, a: Answer, k: Key)
    requires k != p.key && ref.namespace == Tenant(p.key)
    ensures SameTenant(w, EffectOfDelete(w, ref, a), k)
  {
    hide SameTenant;
    FluxChangesAreOwn(w, EffectOfDelete(w, ref, a), p, ref, k);
  }

  lemma WritesAreOwn(w: World, p: Pass, task: Task, a: Answer, k: Key)
    requires k != p.key && OwnTask(p.key, task)
    ensures SameTenant(w, EffectOfWrite(w, p, task, a), k)
  {
    hide Written;
    if task.PutFlux? && !a.Failed? {
      FluxChangesAreOwn(w, EffectOfWrite(w, p, task, a), p, RefOf(task.which, Tenant(p.key)), k);
    }
  }

  lemma OtherRequestsStay(w: World, p: Key, h: Hidden, r: RequestRef)
    requires r.key != p
    ensures var v := MakeRequests(w, p, h.first);
      (r in w.requests <==> r in v.requests) && (r in w.requests ==> w.requests[r] == v.requests[r])
    ensures var v := RevokeRequests(w, p, h);
      (r in w.requests <==> r in v.requests) && (r in w.requests ==> w.requests[r] == v.requests[r])
  {
  }

  lemma RequestChangesAreOwn(w: World, p: Key, h: Hidden, k: Key)
    requires k != p
    ensures SameTenant(w, MakeRequests(w, p, h.first), k)
    ensures SameTenant(w, RevokeRequests(w, p, h), k)
  {
    hide MakeRequests, RevokeRequests;
    forall c { OtherRequestsStay(w, p, h, RequestRef(k, c)); }
  }

  lemma TargetsAreOwn(w: World, p: Pass)
    requires PassSafe(w, p)
    ensures p.pc.Write? ==> OwnTask(p.key, p.pc.task)
    ensures p.pc.DeleteObject? ==> p.pc.ref.namespace == Tenant(p.key)
  {
    hide OwnTask, WithAccess, Dismantling, Installing, NoFlux, NoRequests, Doomed, NotRevoking, AllLive;
  }

  /**
   Tenant isolation: no call of one Kro's pass changes anything on the platform that belongs to another
   Kro, nor anything on its workload cluster unless it is the pass's own, too.
   */
  lemma PassesAreIsolated(w: World, p: Pass, a: Answer, h: Hidden, k: Key)
    requires k != p.key && PassSafe(w, p)
    ensures SameTenant(w, Effect(w, p, a, h), k)
    ensures Home(w, k) != Home(w, p.key) ==> SameWorkload(w, Effect(w, p, a, h), k)
  {
    PlatformIsIsolated(w, p, a, h, k);
    if Home(w, k) != Home(w, p.key) { WorkloadIsIsolated(w, p, a, h, k); }
  }

  lemma WorkloadIsIsolated(w: World, p: Pass, a: Answer, h: Hidden, k: Key)
    requires PassSafe(w, p) && Home(w, k) != Home(w, p.key)
    ensures SameWorkload(w, Effect(w, p, a, h), k)
  {
    hide PassSafe, Effect, EffectOfWrite, SameWorkload, OwnTask;
    TargetsAreOwn(w, p);
    SecretsStandStill(w, Effect(w, p, a, h), k);
    if p.pc.Write? { WritesStayHome(w, p, p.pc.task, a, k); }
  }

  lemma SecretsStandStill(w: World, v: World, k: Key)
    ensures v.secrets == w.secrets && v.namespaces == w.namespaces ==> SameWorkload(w, v, k)
  {
  }

  /** What a task writes to a workload cluster, it writes to that of its own Kro. */
  lemma WritesStayHome(w: World, p: Pass, task: Task, a: Answer, k: Key)
    requires OwnTask(p.key, task) && Home(w, k) != Home(w, p.key)
    ensures SameWorkload(w, EffectOfWrite(w, p, task, a), k)
  {
    hide Written;
  }

  /**
   On a shared cluster nothing sets them apart: writing the kubeconfig of one control plane replaces that
   of another, where they differ, iff both Kros were placed on the same cluster.
   */
  lemma SharedClusterIsOverwritten(w: World, p: Pass, k: Key)
    requires p.pc.Write? && p.pc.task == PutSecret(KubeconfigTarget(p.key))
    ensures var v := Effect(w, p, Ok, NOTHING); var theirs := Place(w, KubeconfigTarget(k));
      && Lawful(w, p, None, 0, Ok, NOTHING)
      && (theirs in w.secrets && w.secrets[theirs] != p.carry ==>
            (!SameSecret(w, v, theirs) <==> Home(w, k) == Home(w, p.key)))
  {
  }

  lemma PlatformIsIsolated(w: World, p: Pass, a: Answer, h: Hidden, k: Key)
    requires k != p.key && PassSafe(w, p)
    ensures SameTenant(w, Effect(w, p, a, h), k)
  {
    hide SameTenant, PassSafe, OwnTask, PutKro, EffectOfLook, EffectOfWrite, EffectOfDelete, MakeRequests,
      RevokeRequests;
    SameTenantIsReflexive(w, k);
    TargetsAreOwn(w, p);
    match p.pc
    case ReconcileAccess => RequestChangesAreOwn(w, p.key, h, k);
    case RevokeAccess => RequestChangesAreOwn(w, p.key, h, k);
    case Write(task, _, _) => WritesAreOwn(w, p, task, a, k);
    case Look(task, _) => LooksAreOwn(w, p, task, a, k);
    case DeleteObject(_, ref) => DeletionsAreOwn(w, p, ref, a, k);
    case PatchAnnotation => if a.GotKro? { KroChangesAreOwn(w, p.key, a.kro, k); }
    case UpdateFinalizer => if a.GotKro? { KroChangesAreOwn(w, p.key, a.kro, k); }
    case RemoveFinalizer => if a.GotKro? { KroChangesAreOwn(w, p.key, a.kro, k); }
    case PatchStatus(_) =>
      if p.key in w.kros { KroChangesAreOwn(w, p.key, Bumped(w, w.kros[p.key].(status := p.obj.status)), k); }
    case _ =>
  }

  lemma SameTenantIsReflexive(w: World, k: Key)
    ensures SameTenant(w, w, k)
  {
  }

  // ---------- all runs ----------

  lemma OthersAreSafe(s: System, v: World, k: Key)
    requires SafeAt(s, k) && Benign(s.world, v, k)
    ensures SafeAt(s.(world := v), k)
  {
    hide StoreSafe, PassSafe, Benign;
    if k in s.passes {
      BenignKeepsPass(s.world, v, s.passes[k]);
    } else {
      BenignKeepsStore(s.world, v, k, s.needsWorkload);
    }
  }

  lemma StepIsSafe(s: System, a: Action, k: Key)
    requires Safe(s) && s.config.history != [] && Enabled(s, a)
    ensures SafeAt(Apply(s, a), k)
  {
    hide StoreSafe, PassSafe, Benign, SameTenant, Effect, Act, Passes.Step, Lawful, Permitted, Observe, Settle;
    assert SafeAt(s, k);
    match a
    case Environment(e) =>
      EnvironmentIsBenign(s.world, e, k);
      OthersAreSafe(s, Act(s.world, e), k);
    case PassCalls(j, answer, h) =>
      if j == k {
        CallIsSafe(s, k, answer, h);
      } else {
        assert SafeAt(s, j);
        var v := Effect(s.world, s.passes[j], answer, h);
        PassesAreIsolated(s.world, s.passes[j], answer, h, k);
        IsolationIsBenign(s.world, v, k);
        OthersAreSafe(s, v, k);
      }
    case PassStarts(j) =>
      if j == k { FreshPassIsSafe(s.world, StartPass(k, s.time, s.needsWorkload)); }
    case _ =>
  }

  lemma FreshPassIsSafe(w: World, p: Pass)
    requires p.pc.GetKro? && p.mode == Undecided
    ensures PassSafe(w, p)
  {
  }

  lemma InitialIsSafe(s: System)
    requires Initial(s)
    ensures Safe(s)
  {
  }

  lemma ReachableIsSafe(s: System)
    requires Reachable(s)
    ensures Safe(s)
  {
    hide SafeAt, Apply, Enabled, Initial, Reachable;
    forall s | Initial(s) ensures Safe(s) { InitialIsSafe(s); }
    forall s, a, t | Safe(s) && Joined(s, a, t) ensures Safe(t) {
      forall k ensures SafeAt(t, k) { StepIsSafe(s, a, k); }
    }
    HoldsWhereReachable(s => Safe(s), s);
  }

  /**
   In every reachable state: while one of a Kro's Flux objects exists, so do the Kro, its finalizer and
   every access request needed to remove what the object installed, none of them being revoked. Hence
   once the finalizer is off, or the Kro is gone, no Flux object is left behind.
   */
  lemma NoOrphans(s: System, k: Key)
    requires Reachable(s)
    ensures !NoFlux(s.world, k) ==> HasFinalizer(s.world, k) && AllLive(s.world, k, s.needsWorkload)
    ensures !HasFinalizer(s.world, k) ==> NoFlux(s.world, k) && NoRequests(s.world, k)
  {
    hide PassSafe;
    ReachableIsSafe(s);
    assert SafeAt(s, k);
  }

  // ---------- no other objects ----------

  /** One of the three objects of some tenant. */
  ghost predicate Managed(ref: FluxRef) { ref.namespace.Tenant? && ref in DeleteTargets(ref.namespace) }

  ghost predicate AllManaged(w: World) { forall ref <- w.flux :: Managed(ref) }

  lemma CallManages(w: World, p: Pass, a: Answer, h: Hidden)
    requires AllManaged(w)
    ensures AllManaged(Effect(w, p, a, h))
  {
    hide Effect, Managed;
    RefsAreManaged(p.key);
    forall ref <- Effect(w, p, a, h).flux ensures Managed(ref) {
      assert ref in Effect(w, p, a, h).flux.Keys;
    }
  }

  lemma RefsAreManaged(k: Key)
    ensures Managed(RefOf(Oci, Tenant(k))) && Managed(RefOf(Main, Tenant(k))) && Managed(RefOf(Crds, Tenant(k)))
  {
    TargetsAreRefs(k);
  }

  lemma EnvironmentManages(w: World, e: Env)
    requires Permitted(w, e) && AllManaged(w)
    ensures AllManaged(Act(w, e))
  {
    hide Managed, PutKro;
  }

  lemma StepManages(s: System, a: Action)
    requires AllManaged(s.world) && s.config.history != [] && Enabled(s, a)
    ensures AllManaged(Apply(s, a).world)
  {
    hide AllManaged, Effect, Act, Passes.Step, Lawful, Permitted, Observe, Settle;
    match a
    case Environment(e) => EnvironmentManages(s.world, e);
    case PassCalls(k, answer, h) => CallManages(s.world, s.passes[k], answer, h);
    case _ =>
  }

  lemma InitialManages(s: System)
    requires Initial(s)
    ensures AllManaged(s.world)
  {
  }

  /** Every Flux object is one of the three that Delete removes, of a Kro that still has its finalizer. */
  lemma OnlyManagedObjects(s: System, ref: FluxRef)
    requires Reachable(s) && ref in s.world.flux
    ensures ref.namespace.Tenant? && ref in DeleteTargets(ref.namespace) && HasFinalizer(s.world, ref.namespace.key)
  {
    hide AllManaged, Apply, Enabled, Initial, Reachable;
    forall s: System | Initial(s) ensures AllManaged(s.world) { InitialManages(s); }
    forall s: System, a, t | AllManaged(s.world) && Joined(s, a, t) ensures AllManaged(t.world) { StepManages(s, a); }
    HoldsWhereReachable((s: System) => AllManaged(s.world), s);
    ManagedHasFinalizer(s, ref);
  }

  lemma ManagedHasFinalizer(s: System, ref: FluxRef)
    requires Reachable(s) && ref in s.world.flux && AllManaged(s.world)
    ensures Managed(ref) && HasFinalizer(s.world, ref.namespace.key)
  {
    hide Reachable;
    TargetsAreRefs(ref.namespace.key);
    NoOrphans(s, ref.namespace.key);
  }
}
