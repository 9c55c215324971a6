/**
 The contract of cluster access: what the domain logic may rely on when it is called, so that its
 checks for missing handles and its use of the access secret never fail in a create pass.
 */
module Access {
  import opened Wrappers
  import opened Resources
  import opened Passes
  import opened Worlds
  import opened Operator
  import opened Traces
  import opened Safety
  import Statuses
  import Versions

  predicate AtDomain(p: Pass) { p.pc.ResolveNamespace? || p.pc.Look? || p.pc.Write? || p.pc.CountRGDs? }

  predicate BeforeAccess(p: Pass) {
    p.pc.GetKro? || p.pc.PatchAnnotation? || p.pc.LoadConfig? || p.pc.GetForFinalizer? || p.pc.RecreateKro?
      || p.pc.UpdateFinalizer? || p.pc.CheckRequest? || p.pc.ReconcileAccess? || p.pc == GetCluster(MCP)
  }

  /** Everything the provider is configured to give. */
  predicate FullAccess(p: Pass) { p.ctx.mcp && (p.needsWorkload ==> p.ctx.workload) }

  /** The handles are filled in order: none, the control plane's, then the workload cluster's. */
  ghost predicate Granting(p: Pass) {
    && (BeforeAccess(p) ==> !p.ctx.mcp && !p.ctx.workload)
    && (p.pc == GetRequest(MCP) || p.pc == GetCluster(Workload) ==> p.ctx.mcp && !p.ctx.workload)
    && (p.pc == GetCluster(Workload) || p.pc == GetRequest(Workload) ==> p.needsWorkload)
    && (p.pc == GetRequest(Workload) ==> p.ctx.mcp && p.ctx.workload)
    && (AtDomain(p) ==> (p.ctx.workload ==> p.ctx.mcp) && (p.mode == Creating ==> FullAccess(p)))
    && (p.pc.Look? || p.pc.Write? ==> p.mode == Creating)
  }

  lemma FirstCallsGrantNothing(p: Pass, a: Answer)
    requires Granting(p) && BeforeAccess(p) && !p.pc.ReconcileAccess? && !p.pc.GetCluster?
    ensures Granting(Passes.Step(p, a))
  {
    hide AfterGetKro, AfterPatchAnnotation, AfterLoadConfig, AfterGetForFinalizer, AfterUpdateFinalizer,
      AfterCheckRequest, FailProgressing;
  }

  lemma ReconcilingGrants(p: Pass, a: Answer)
    requires Granting(p) && p.pc.ReconcileAccess?
    ensures Granting(AfterReconcileAccess(p, a))
  {
    hide FailClusters, WithClusters, Return;
  }

  lemma GettingGrants(p: Pass, a: Answer)
    requires Granting(p) && p.pc.GetCluster?
    ensures Granting(AfterGetCluster(p, p.pc.cluster, a))
  {
    hide FailClusters, WithClusters, Return;
  }

  lemma RequestingGrants(p: Pass, a: Answer)
    requires Granting(p) && p.pc.GetRequest?
    ensures Granting(AfterGetRequest(p, p.pc.cluster, a))
  {
    hide FailClusters, WithClusters;
  }

  lemma DomainKeepsAccess(p: Pass, a: Answer)
    requires Granting(p) && !BeforeAccess(p) && !p.pc.GetCluster? && !p.pc.GetRequest?
    ensures Granting(Passes.Step(p, a))
  {
    hide AfterResolveNamespace, AfterLook, AfterWrite, AfterCountRGDs, AfterDeleteObject, AfterConfirmGone,
      AfterRevokeAccess, AfterRemoveFinalizer, AfterPatchStatus, Statuses.Agrees, AllReady, Plan;
  }

  lemma CallGrants(p: Pass, a: Answer)
    requires Granting(p)
    ensures Granting(Passes.Step(p, a))
  {
    hide MovesOn, Stays, Accesses;
    hide Granting, BeforeAccess;
    match p.pc
    case ReconcileAccess => ReconcilingGrants(p, a);
    case GetCluster(_) => GettingGrants(p, a);
    case GetRequest(_) => RequestingGrants(p, a);
    case _ =>
      if BeforeAccess(p) { FirstCallsGrantNothing(p, a); } else { DomainKeepsAccess(p, a); }
  }

  lemma FreshGrantsNothing(p: Pass)
    requires p == Fresh(p)
    ensures Granting(p)
  {
  }

  lemma {:induction false} TracedGrants(p: Pass, t: seq<Call>)
    requires Traced(p, t)
    ensures Granting(p)
    decreases |t|
  {
    hide Passes.Step, Granting;
    if t == [] {
      FreshGrantsNothing(p);
    } else {
      var last := |t| - 1;
      var before := After(Fresh(p), t[..last]);
      TracedPrefix(p, t);
      TracedGrants(before, t[..last]);
      CallGrants(before, t[last].answer);
    }
  }

  lemma {:induction false} CopiesNeverAbort(k: Key, names: seq<string>)
    ensures forall t <- CopyImageSecrets(k, names) :: !t.Abort?
  {
    if names != [] { CopiesNeverAbort(k, names[1..]); }
  }

  /** With a workload handle, only unparsable Helm values can abort the plan. */
  lemma PlanNeverAborts(k: Key, v: KroVersion, ctx: ClusterContext)
    requires ctx.workload && Versions.ExtractHelmValues(v.helmValues).Success?
    ensures forall t <- Plan(k, v, ctx) :: !t.Abort?
  {
    CopiesNeverAbort(k, Versions.ExtractHelmValues(v.helmValues).value);
    var tasks := ImageSecretTasks(k, ctx.workload, v.helmValues) + KubeconfigTasks(k, ctx);
    assert forall t <- tasks :: !t.Abort?;
    hide ImageSecretTasks, KubeconfigTasks;
  }

  // ---------- the access stays granted ----------

  /** From the provider's grant on, a create pass relies on what was granted. */
  predicate Relies(p: Pass) {
    p.mode == Creating
      && (p.pc.GetCluster? || p.pc.GetRequest? || p.pc.ResolveNamespace? || p.pc.Look? || p.pc.Write?)
  }

  ghost predicate GrantedAt(s: System, k: Key) {
    k in s.passes && Relies(s.passes[k]) ==> AllGranted(s.world, k, s.needsWorkload)
  }

  /** Granted requests that are not being revoked stay, with their secret. */
  ghost predicate KeepsGrants(w: World, v: World, k: Key) {
    && (Live(w, k, MCP) && Granted(w, k, MCP) ==> Granted(v, k, MCP))
    && (Live(w, k, Workload) && Granted(w, k, Workload) ==> Granted(v, k, Workload))
  }

  lemma EnvironmentKeepsGrants(w: World, e: Env, k: Key)
    requires Permitted(w, e)
    ensures KeepsGrants(w, Act(w, e), k)
  {
    hide PutKro, RequestDeletion;
  }

  lemma OthersKeepGrants(w: World, v: World, k: Key)
    requires SameTenant(w, v, k)
    ensures KeepsGrants(w, v, k)
  {
  }

  lemma RelyingStarts(p: Pass, a: Answer)
    requires NonNegative(a) && Relies(Passes.Step(p, a))
    ensures Relies(p) || (p.pc.ReconcileAccess? && a == Delay(0))
  {
    hide AfterGetKro, AfterPatchAnnotation, AfterLoadConfig, AfterGetForFinalizer, AfterUpdateFinalizer,
      AfterCheckRequest, AfterReconcileAccess, AfterGetCluster, AfterGetRequest, AfterResolveNamespace,
      AfterLook, AfterWrite, AfterCountRGDs, AfterDeleteObject, AfterConfirmGone, AfterRevokeAccess,
      AfterRemoveFinalizer, AfterPatchStatus, FailProgressing, Statuses.Agrees, AllReady, Plan;
    if !Relies(p) {
      match p.pc
      case GetKro =>
      case PatchAnnotation =>
      case LoadConfig =>
      case GetForFinalizer =>
      case RecreateKro =>
      case UpdateFinalizer =>
      case CheckRequest(_) =>
      case ReconcileAccess =>
      case GetCluster(_) =>
      case GetRequest(_) =>
      case ResolveNamespace =>
      case Look(_, _) =>
      case Write(_, _, _) =>
      case CountRGDs =>
      case DeleteObject(_, _) =>
      case ConfirmGone(_, _) =>
      case RevokeAccess =>
      case RemoveFinalizer =>
      case PatchStatus(_) =>
      case Done(_) =>
    }
  }

  lemma RelyingKeepsRequests(w: World, p: Pass, a: Answer, h: Hidden)
    requires Relies(p)
    ensures Effect(w, p, a, h).requests == w.requests
  {
    hide EffectOfLook, EffectOfWrite;
  }

  lemma OwnCallKeepsGrants(w: World, p: Pass, cache: Option<ProviderConfig>, epoch: nat, a: Answer, h: Hidden)
    requires Lawful(w, p, cache, epoch, a, h) && NonNegative(a)
    requires Relies(p) ==> AllGranted(w, p.key, p.needsWorkload)
    ensures Relies(Passes.Step(p, a)) ==> AllGranted(Effect(w, p, a, h), p.key, p.needsWorkload)
  {
    hide Passes.Step;
    if Relies(Passes.Step(p, a)) {
      RelyingStarts(p, a);
      if Relies(p) {
        hide Lawful, Effect;
        RelyingKeepsRequests(w, p, a, h);
      }
    }
  }

  lemma StepKeepsGrants(s: System, a: Action, k: Key)
    requires Safe(s) && GrantedAt(s, k) && s.config.history != [] && Enabled(s, a)
    ensures GrantedAt(Apply(s, a), k)
  {
    hide MovesOn, Stays, Accesses;
    hide StoreSafe, PassSafe, SameTenant, KeepsGrants, AllGranted, Relies, Effect, Act, Passes.Step, Lawful,
      Permitted, Observe, Settle;
    assert SafeAt(s, k);
    match a
    case Environment(e) =>
      EnvironmentKeepsGrants(s.world, e, k);
      OthersKeepGrantedAt(s, Act(s.world, e), k);
    case PassCalls(j, answer, h) =>
      var p := s.passes[j];
      if j == k {
        LawfulIsNonNegative(s.world, p, s.config.stored.config, s.config.epoch, answer, h);
        OwnCallKeepsGrants(s.world, p, s.config.stored.config, s.config.epoch, answer, h);
      } else {
        assert SafeAt(s, j);
        PassesAreIsolated(s.world, p, answer, h, k);
        OthersKeepGrants(s.world, Effect(s.world, p, answer, h), k);
        OthersKeepGrantedAt(s, Effect(s.world, p, answer, h), k);
      }
    case PassStarts(j) => FreshPassReliesOnNothing(k, s.time, s.needsWorkload);
    case _ =>
  }

  lemma FreshPassReliesOnNothing(k: Key, now: nat, needs: bool)
    ensures !Relies(StartPass(k, now, needs))
  {
  }

  lemma OthersKeepGrantedAt(s: System, v: World, k: Key)
    requires SafeAt(s, k) && GrantedAt(s, k) && KeepsGrants(s.world, v, k)
    ensures GrantedAt(s.(world := v), k)
  {
    hide StoreSafe, NoFlux, OwnPlan, GoneBefore, Dismantling, Installing;
  }

  lemma ReachableGrants(s: System, k: Key)
    requires Reachable(s)
    ensures GrantedAt(s, k)
  {
    hide SafeAt, GrantedAt, Apply, Enabled, Initial, Reachable;
    forall s | Initial(s) ensures Safe(s) && GrantedAt(s, k) {
      InitialIsSafe(s);
      InitialGrantsNothing(s, k);
    }
    forall s, a, t | Safe(s) && GrantedAt(s, k) && Joined(s, a, t) ensures Safe(t) && GrantedAt(t, k) {
      forall j ensures SafeAt(t, j) { StepIsSafe(s, a, j); }
      StepKeepsGrants(s, a, k);
    }
    HoldsWhereReachable(s => Safe(s) && GrantedAt(s, k), s);
  }

  lemma InitialGrantsNothing(s: System, k: Key)
    requires Initial(s)
    ensures GrantedAt(s, k)
  {
  }

  /**
   The access contract, over every answer the provider may give: when the domain logic of a create pass
   runs, the control plane handle is there, and the workload handle if the operator asks for one; a
   workload handle never comes without the other; then only unparsable Helm values can abort the plan
   from within, and the workload access request that the main release is built from has a secret.
   */
  lemma AccessIsComplete(s: System, k: Key)
    requires Reachable(s) && k in s.passes && AtDomain(s.passes[k])
    ensures var p := s.passes[k];
      && (p.ctx.workload ==> p.ctx.mcp)
      && (p.mode == Creating ==>
            && p.ctx.mcp && (s.needsWorkload ==> p.ctx.workload)
            && (s.needsWorkload && Versions.ExtractHelmValues(p.version.helmValues).Success? ==>
                  (forall t <- Plan(k, p.version, p.ctx) :: !t.Abort?)
                  && RequestRef(k, Workload) in s.world.requests
                  && s.world.requests[RequestRef(k, Workload)].secretRef.Some?))
  {
    hide Reachable, Traced, Plan;
    var p := s.passes[k];
    ReachableIsTraced(s, k);
    TracedGrants(p, TraceOf(s, k));
    ReachableGrants(s, k);
    ReachableIsSafe(s);
    assert SafeAt(s, k);
    hide PassSafe, StoreSafe;
    if s.needsWorkload && p.ctx.workload && Versions.ExtractHelmValues(p.version.helmValues).Success? {
      PlanNeverAborts(k, p.version, p.ctx);
    }
  }

  /**
   With `requireAll` unset nothing ever waits: getting access for a deletion ends in an error or goes
   on to the domain logic, with no delay left that would make it skip Delete.
   */
  lemma DeletionNeverWaitsForAccess(s: System, k: Key, a: Answer, h: Hidden)
    requires Reachable(s) && k in s.passes && s.passes[k].mode == Deleting
    requires s.passes[k].pc.ReconcileAccess? || s.passes[k].pc.GetCluster? || s.passes[k].pc.GetRequest?
    requires Enabled(s, PassCalls(k, a, h))
    ensures var q := Passes.Step(s.passes[k], a);
      Fails(q) || ((q.pc.ResolveNamespace? || q.pc.GetCluster? || q.pc.GetRequest?) && q.delay == 0)
  {
    hide Reachable, PassSafe, StoreSafe;
    LawfulIsNonNegative(s.world, s.passes[k], s.config.stored.config, s.config.epoch, a, h);
    hide Lawful;
    ReachableIsSafe(s);
    assert SafeAt(s, k);
    if !s.passes[k].pc.ReconcileAccess? { HasNoDelay(s.world, s.passes[k]); }
    hide AfterReconcileAccess, AfterGetCluster, AfterGetRequest;
  }

  lemma HasNoDelay(w: World, p: Pass)
    requires PassSafe(w, p) && (p.pc.GetCluster? || p.pc.GetRequest?)
    ensures p.delay == 0
  {
  }
}
