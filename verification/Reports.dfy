/** What a Kro's status says, in every run: the parts agree, and Ready is not claimed lightly. */
module Reports {
  import opened Wrappers
  import opened Resources
  import opened Statuses
  import opened Passes
  import opened Worlds
  import opened Operator
  import Flux
  import Safety
  import opened Guards
  import opened Traces

  /** The pass has come to the domain logic. */
  predicate Entered(pc: Pc) {
    pc.Look? || pc.Write? || pc.CountRGDs? || pc.DeleteObject? || pc.ConfirmGone? || pc.RevokeAccess?
      || pc.RemoveFinalizer? || pc.PatchStatus? || pc.Done?
  }

  /** `entered`, `revoked`: the pass has called ResolveNamespace, RevokeAccess. */
  ghost predicate Honest(p: Pass, entered: bool, revoked: bool) {
    && Agrees(p.obj.status) && Agrees(p.snapshot)
    && (!Entered(p.pc) ==> !entered)
    && (p.pc.ResolveNamespace? ==> p.obj.status.phase == (if p.mode == Creating then Progressing else Terminating))
    && (p.pc.Look? || p.pc.Write? ==> p.mode == Creating && p.obj.status.phase == Progressing)
    && (p.pc.CountRGDs? || p.pc.DeleteObject? || p.pc.ConfirmGone? ==>
          p.mode != Creating && p.obj.status.phase == Terminating)
    && (p.pc.CheckRequest? || p.pc.RevokeAccess? || p.pc.RemoveFinalizer? ==> p.mode != Creating)
    && (p.pc.RemoveFinalizer? ==> revoked)
    && (Leaving(p) && p.obj.status.phase == Ready ==>
          (p.mode == Creating && entered ==> AllReady(p)) && (p.mode == Deleting ==> revoked))
  }

  ghost predicate HonestAfter(p: Pass, entered: bool, revoked: bool, q: Pass) {
    Honest(q, entered || p.pc.ResolveNamespace?, revoked || p.pc.RevokeAccess?)
  }

  predicate Modest(p: Pass) { p.pc.GetKro? || p.pc.PatchAnnotation? || p.pc.LoadConfig? ==> p.mode == Undecided }

  lemma GetKroIsHonest(p: Pass, e: bool, r: bool, a: Answer)
    requires Honest(p, e, r) && Modest(p) && (a.GotKro? ==> Agrees(a.kro.status)) && p.pc.GetKro?
    ensures HonestAfter(p, e, r, AfterGetKro(p, a))
  {
    hide FailProgressing, Coherent;
  }

  lemma PatchAnnotationIsHonest(p: Pass, e: bool, r: bool, a: Answer)
    requires Honest(p, e, r) && Modest(p) && (a.GotKro? ==> Agrees(a.kro.status)) && p.pc.PatchAnnotation?
    ensures HonestAfter(p, e, r, AfterPatchAnnotation(p, a))
  {
    hide FailProgressing, Coherent;
  }

  lemma LoadConfigIsHonest(p: Pass, e: bool, r: bool, a: Answer)
    requires Honest(p, e, r) && Modest(p) && (a.GotKro? ==> Agrees(a.kro.status)) && p.pc.LoadConfig?
    ensures HonestAfter(p, e, r, AfterLoadConfig(p, a))
  {
    hide FailProgressing, Coherent;
  }

  lemma GetForFinalizerIsHonest(p: Pass, e: bool, r: bool, a: Answer)
    requires Honest(p, e, r) && (a.GotKro? ==> Agrees(a.kro.status)) && p.pc.GetForFinalizer?
    ensures HonestAfter(p, e, r, AfterGetForFinalizer(p, a))
  {
    hide FailProgressing, Coherent;
  }

  lemma UpdateFinalizerIsHonest(p: Pass, e: bool, r: bool, a: Answer)
    requires Honest(p, e, r) && (a.GotKro? ==> Agrees(a.kro.status)) && p.pc.UpdateFinalizer?
    ensures HonestAfter(p, e, r, AfterUpdateFinalizer(p, a))
  {
    hide FailProgressing, Coherent;
  }

  lemma RecreateIsHonest(p: Pass, e: bool, r: bool, a: Answer)
    requires Honest(p, e, r) && p.pc.RecreateKro?
    ensures HonestAfter(p, e, r, FailProgressing(p, "failed to add finalizer"))
  {
    hide FailProgressing, Coherent;
  }

  lemma CheckRequestIsHonest(p: Pass, e: bool, r: bool, a: Answer)
    requires Honest(p, e, r) && p.pc.CheckRequest?
    ensures HonestAfter(p, e, r, AfterCheckRequest(p, p.pc.cluster, a))
  {
    hide FailProgressing, Coherent, AllReady, Statuses.MarkProgressing;
  }

  lemma AccessIsHonest(p: Pass, e: bool, r: bool, a: Answer)
    requires Honest(p, e, r) && p.pc.ReconcileAccess?
    ensures HonestAfter(p, e, r, AfterReconcileAccess(p, a))
  {
    hide FailClusters, Return, Coherent;
  }

  lemma WithClustersIsHonest(p: Pass, r: bool)
    requires Agrees(p.obj.status) && Agrees(p.snapshot)
    ensures Honest(WithClusters(p), false, r)
  {
    hide Return, Coherent, Statuses.MarkProgressing, Statuses.MarkTerminating, AllReady;
  }

  lemma WithoutClusterIsHonest(p: Pass, r: bool)
    requires Agrees(p.obj.status) && Agrees(p.snapshot)
    ensures Honest(WithoutCluster(p, 10), false, r)
  {
    hide WithClusters, Honest, Agrees;
    WithClustersIsHonest(p.(delay := if p.mode == Creating then 10 else 0), r);
  }

  lemma GetClusterIsHonest(p: Pass, e: bool, r: bool, a: Answer)
    requires Honest(p, e, r) && p.pc.GetCluster?
    ensures HonestAfter(p, e, r, AfterGetCluster(p, p.pc.cluster, a))
  {
    hide WithClusters, WithoutCluster, FailClusters, Agrees, AllReady;
    WithClustersIsHonest(p, r);
    WithoutClusterIsHonest(p, r);
    MarkedAgrees(p, FailClusters(p));
  }

  lemma MarkedAgrees(p: Pass, q: Pass)
    requires Agrees(p.obj.status) && Marked(p.obj, q.obj, q.obj.status.phase)
    ensures Agrees(q.obj.status)
  {
  }

  lemma GetRequestIsHonest(p: Pass, e: bool, r: bool, a: Answer)
    requires Honest(p, e, r) && p.pc.GetRequest?
    ensures HonestAfter(p, e, r, AfterGetRequest(p, p.pc.cluster, a))
  {
    hide WithClusters, FailClusters, SecretName, Coherent, AllReady;
    if a.GotRequest? {
      WithClustersIsHonest(p.(ctx := p.ctx.(mcpSecret := SecretName(a.request))), r);
      WithClustersIsHonest(p.(ctx := p.ctx.(workloadSecret := SecretName(a.request))), r);
    }
  }

  lemma ResolveIsHonest(p: Pass, e: bool, r: bool, a: Answer)
    requires Honest(p, e, r) && p.pc.ResolveNamespace?
    ensures HonestAfter(p, e, r, AfterResolveNamespace(p, a))
  {
    hide Fail, BeginCreate, BeginTeardown, Coherent;
  }

  lemma LookIsHonest(p: Pass, e: bool, r: bool, a: Answer)
    requires Honest(p, e, r) && p.pc.Look?
    ensures HonestAfter(p, e, r, AfterLook(p, p.pc.task, p.pc.rest, a))
  {
    hide AfterLook, AfterWrite, Coherent;
  }

  lemma WriteIsHonest(p: Pass, e: bool, r: bool, a: Answer)
    requires Honest(p, e, r) && p.pc.Write?
    ensures HonestAfter(p, e, r, AfterWrite(p, p.pc.task, p.pc.rest, a))
  {
    hide AfterLook, AfterWrite, Coherent;
  }

  lemma CountIsHonest(p: Pass, e: bool, r: bool, a: Answer)
    requires Honest(p, e, r) && p.pc.CountRGDs?
    ensures HonestAfter(p, e, r, AfterCountRGDs(p, a))
  {
    hide FailTerminating, Return, BeginTeardown, Coherent, Statuses.MarkTerminatingWithReason;
  }

  lemma DeleteObjectIsHonest(p: Pass, e: bool, r: bool, a: Answer)
    requires Honest(p, e, r) && p.pc.DeleteObject?
    ensures HonestAfter(p, e, r, AfterDeleteObject(p, p.pc.i, p.pc.ref, a))
  {
    hide FailTerminating, Return, Coherent, Statuses.MarkReady;
  }

  lemma ConfirmGoneIsHonest(p: Pass, e: bool, r: bool, a: Answer)
    requires Honest(p, e, r) && p.pc.ConfirmGone?
    ensures HonestAfter(p, e, r, AfterConfirmGone(p, p.pc.i, a))
  {
    hide FailTerminating, Return, Coherent, Statuses.MarkReady;
  }

  lemma RevokeIsHonest(p: Pass, e: bool, r: bool, a: Answer)
    requires Honest(p, e, r) && (a.GotKro? ==> Agrees(a.kro.status)) && p.pc.RevokeAccess?
    ensures HonestAfter(p, e, r, AfterRevokeAccess(p, a))
  {
    hide FailTerminating, Return, Coherent;
  }

  lemma RemoveFinalizerIsHonest(p: Pass, e: bool, r: bool, a: Answer)
    requires Honest(p, e, r) && (a.GotKro? ==> Agrees(a.kro.status)) && p.pc.RemoveFinalizer?
    ensures HonestAfter(p, e, r, AfterRemoveFinalizer(p, a))
  {
    hide FailTerminating, Return, Coherent;
  }

  lemma PatchStatusIsHonest(p: Pass, e: bool, r: bool, a: Answer)
    requires Honest(p, e, r) && (a.GotKro? ==> Agrees(a.kro.status)) && p.pc.PatchStatus?
    ensures HonestAfter(p, e, r, AfterPatchStatus(p, p.pc.result, a))
  {
    hide FailTerminating, Return, Coherent;
  }

  lemma FirstCallsAreHonest(p: Pass, e: bool, r: bool, a: Answer)
    requires Honest(p, e, r) && Modest(p) && (a.GotKro? ==> Agrees(a.kro.status))
    requires Beginning(p.pc)
    ensures HonestAfter(p, e, r, Passes.Step(p, a)) && Modest(Passes.Step(p, a))
  {
    hide AfterGetKro, AfterPatchAnnotation, AfterLoadConfig, AfterGetForFinalizer, AfterUpdateFinalizer,
      AfterCheckRequest, AfterReconcileAccess, AfterGetCluster, AfterGetRequest, AfterResolveNamespace,
      AfterLook, AfterWrite, AfterCountRGDs, AfterDeleteObject, AfterConfirmGone, AfterRevokeAccess,
      AfterRemoveFinalizer, AfterPatchStatus, FailProgressing;
    hide Honest, Agrees;
    match p.pc
    case GetKro => GetKroIsHonest(p, e, r, a);
    case PatchAnnotation => PatchAnnotationIsHonest(p, e, r, a);
    case LoadConfig => LoadConfigIsHonest(p, e, r, a);
    case GetForFinalizer => GetForFinalizerIsHonest(p, e, r, a);
    case RecreateKro => RecreateIsHonest(p, e, r, a);
    case UpdateFinalizer => UpdateFinalizerIsHonest(p, e, r, a);
    case CheckRequest(_) => CheckRequestIsHonest(p, e, r, a);
    case ReconcileAccess => AccessIsHonest(p, e, r, a);
    case GetCluster(_) => GetClusterIsHonest(p, e, r, a);
    case GetRequest(_) => GetRequestIsHonest(p, e, r, a);
  }

  lemma LastCallsAreHonest(p: Pass, e: bool, r: bool, a: Answer)
    requires Honest(p, e, r) && Modest(p) && (a.GotKro? ==> Agrees(a.kro.status))
    requires !Beginning(p.pc)
    ensures HonestAfter(p, e, r, Passes.Step(p, a)) && Modest(Passes.Step(p, a))
  {
    hide AfterGetKro, AfterPatchAnnotation, AfterLoadConfig, AfterGetForFinalizer, AfterUpdateFinalizer,
      AfterCheckRequest, AfterReconcileAccess, AfterGetCluster, AfterGetRequest, AfterResolveNamespace,
      AfterLook, AfterWrite, AfterCountRGDs, AfterDeleteObject, AfterConfirmGone, AfterRevokeAccess,
      AfterRemoveFinalizer, AfterPatchStatus, FailProgressing;
    hide Honest, Agrees;
    match p.pc
    case ResolveNamespace => ResolveIsHonest(p, e, r, a);
    case Look(_, _) => LookIsHonest(p, e, r, a);
    case Write(_, _, _) => WriteIsHonest(p, e, r, a);
    case CountRGDs => CountIsHonest(p, e, r, a);
    case DeleteObject(_, _) => DeleteObjectIsHonest(p, e, r, a);
    case ConfirmGone(_, _) => ConfirmGoneIsHonest(p, e, r, a);
    case RevokeAccess => RevokeIsHonest(p, e, r, a);
    case RemoveFinalizer => RemoveFinalizerIsHonest(p, e, r, a);
    case PatchStatus(_) => PatchStatusIsHonest(p, e, r, a);
    case Done(_) => DoneIsHonest(p, e, r);
  }

  lemma CallIsHonest(p: Pass, e: bool, r: bool, a: Answer)
    requires Honest(p, e, r) && Modest(p) && (a.GotKro? ==> Agrees(a.kro.status))
    ensures HonestAfter(p, e, r, Passes.Step(p, a)) && Modest(Passes.Step(p, a))
  {
    hide Passes.Step;
    if Beginning(p.pc) {
      FirstCallsAreHonest(p, e, r, a);
    } else {
      LastCallsAreHonest(p, e, r, a);
    }
  }

  lemma DoneIsHonest(p: Pass, e: bool, r: bool)
    requires Honest(p, e, r) && p.pc.Done?
    ensures HonestAfter(p, e, r, p)
  {
  }

  // ---------- all runs ----------

  ghost predicate HasEntered(t: seq<Call>) { exists j :: 0 <= j < |t| && t[j].pc.ResolveNamespace? }

  ghost predicate HonestAt(s: System, k: Key) {
    && (k in s.world.kros ==> Agrees(s.world.kros[k].status))
    && (k in s.passes ==>
          var p, t := s.passes[k], TraceOf(s, k);
          p.key == k && Modest(p) && Honest(p, HasEntered(t), Revoked(t)))
  }

  lemma EmptyStatusAgrees()
    ensures Agrees(EMPTY_STATUS)
  {
  }

  lemma PuttingAgrees(w: World, k: Key, kro: Kro, j: Key)
    requires j in PutKro(w, k, kro).kros
    requires if j == k then Agrees(kro.status) else j in w.kros ==> Agrees(w.kros[j].status)
    ensures Agrees(PutKro(w, k, kro).kros[j].status)
  {
    hide Agrees;
  }

  lemma StoredStatusAgrees(w: World, p: Pass, a: Answer, h: Hidden, k: Key)
    requires k in Effect(w, p, a, h).kros
    requires k in w.kros ==> Agrees(w.kros[k].status)
    requires p.pc.PatchStatus? ==> Agrees(p.obj.status)
    requires a.GotKro? && p.key == k ==> Agrees(a.kro.status)
    ensures Agrees(Effect(w, p, a, h).kros[k].status)
  {
    hide Agrees, Effect, PutKro;
    if StoresAnswer(p.pc) && a.GotKro? {
      PuttingAgrees(w, p.key, a.kro, k);
    } else if p.pc.PatchStatus? && a.Ok? && p.key in w.kros {
      PuttingAgrees(w, p.key, Bumped(w, w.kros[p.key].(status := p.obj.status)), k);
    }
  }

  lemma AnswersAgree(w: World, p: Pass, cache: Option<ProviderConfig>, epoch: nat, a: Answer, h: Hidden)
    requires Lawful(w, p, cache, epoch, a, h) && a.GotKro?
    requires p.key in w.kros ==> Agrees(w.kros[p.key].status)
    ensures Agrees(a.kro.status)
  {
    hide Agrees, Written, RevokeRequests, NoRequests, AllGranted, RGDs;
  }

  lemma EnvironmentAgrees(w: World, e: Env, k: Key)
    requires Permitted(w, e) && k in Act(w, e).kros
    requires k in w.kros ==> Agrees(w.kros[k].status)
    ensures Agrees(Act(w, e).kros[k].status)
  {
    hide RequestDeletion, Agrees, PutKro;
    EmptyStatusAgrees();
    match e
    case UserCreates(j, version, op, foreign) =>
      PuttingAgrees(w, j, Kro(version, op, 1, w.clock + 1, false, false, foreign, EMPTY_STATUS), k);
    case UserEdits(j, version) =>
      PuttingAgrees(w, j, Bumped(w, w.kros[j].(version := version, generation := w.kros[j].generation + 1)), k);
    case UserAnnotates(j, op) => PuttingAgrees(w, j, Bumped(w, w.kros[j].(op := op)), k);
    case UserDeletes(j) =>
      PuttingAgrees(w, j, Bumped(w, w.kros[j].(deleting := true, generation := w.kros[j].generation + 1)), k);
    case ForeignReleases(j) => PuttingAgrees(w, j, Bumped(w, w.kros[j].(foreign := false)), k);
    case _ =>
  }

  lemma AppendKeepsEntered(t: seq<Call>, c: Call)
    ensures HasEntered(t + [c]) <==> HasEntered(t) || c.pc.ResolveNamespace?
    ensures Revoked(t + [c]) <==> Revoked(t) || c.pc.RevokeAccess?
  {
    var u := t + [c];
    assert u[|t|] == c && forall j :: 0 <= j < |t| ==> u[j] == t[j];
  }

  lemma CallStoresAgreement(s: System, j: Key, a: Answer, h: Hidden, k: Key)
    requires j in s.passes && HonestAt(s, j) && HonestAt(s, k)
    requires Lawful(s.world, s.passes[j], s.config.stored.config, s.config.epoch, a, h)
    ensures k in Effect(s.world, s.passes[j], a, h).kros ==> Agrees(Effect(s.world, s.passes[j], a, h).kros[k].status)
    ensures a.GotKro? ==> Agrees(a.kro.status)
  {
    hide Honest, Agrees, HasEntered, Revoked, Effect, Lawful;
    var p, t := s.passes[j], TraceOf(s, j);
    if a.GotKro? { AnswersAgree(s.world, p, s.config.stored.config, s.config.epoch, a, h); }
    HonestHasAgreement(p, HasEntered(t), Revoked(t));
    if k in Effect(s.world, p, a, h).kros { StoredStatusAgrees(s.world, p, a, h, k); }
  }

  lemma CallKeepsHonesty(s: System, j: Key, a: Answer, h: Hidden, k: Key)
    requires j in s.passes && HonestAt(s, j) && HonestAt(s, k)
    requires Lawful(s.world, s.passes[j], s.config.stored.config, s.config.epoch, a, h)
    ensures HonestAt(Calls(s, j, a, h), k)
  {
    hide Honest, Agrees, HasEntered, Revoked, Effect, Passes.Step, Lawful, Watch;
    CallStoresAgreement(s, j, a, h, k);
    if j == k {
      var p, t := s.passes[k], TraceOf(s, k);
      CallIsHonest(p, HasEntered(t), Revoked(t), a);
      AppendKeepsEntered(t, Call(p.pc, a));
    }
  }

  lemma StepIsHonest(s: System, a: Action, k: Key)
    requires HonestAt(s, k) && s.config.history != [] && Enabled(s, a)
    requires a.PassCalls? ==> HonestAt(s, a.k)
    ensures HonestAt(Apply(s, a), k)
  {
    hide Honest, Agrees, HasEntered, Revoked, Effect, Act, Calls, Lawful, Permitted, Observe, Settle;
    match a
    case Environment(e) => if k in Act(s.world, e).kros { EnvironmentAgrees(s.world, e, k); }
    case PassCalls(j, answer, h) => CallKeepsHonesty(s, j, answer, h, k);
    case PassStarts(j) => if j == k { FreshIsHonest(k, s.time, s.needsWorkload); }
    case _ =>
  }

  lemma HonestHasAgreement(p: Pass, e: bool, r: bool)
    requires Honest(p, e, r)
    ensures Agrees(p.obj.status)
  {
  }

  lemma FreshIsHonest(k: Key, now: nat, needs: bool)
    ensures Honest(StartPass(k, now, needs), HasEntered([]), Revoked([]))
  {
  }

  lemma InitialIsHonest(s: System, k: Key)
    requires Initial(s)
    ensures HonestAt(s, k)
  {
  }

  lemma ReachableIsHonest(s: System, k: Key)
    requires Reachable(s)
    ensures HonestAt(s, k)
  {
    hide HonestAt, Apply, Enabled, Initial, Reachable;
    forall s, k | Initial(s) ensures HonestAt(s, k) { InitialIsHonest(s, k); }
    forall s, a, t, k | (forall j :: HonestAt(s, j)) && Joined(s, a, t) ensures HonestAt(t, k) {
      StepIsHonest(s, a, k);
    }
    HoldsWhereReachable(s => forall j :: HonestAt(s, j), s);
  }

  // ---------- what Ready means ----------

  /** One of the calls `t` dealt with object `which` and was answered with conditions `cs`. */
  ghost predicate Answered(t: seq<Call>, which: Flux.Which, cs: seq<Condition>) {
    exists j :: 0 <= j < |t| && AnswersWith(t[j], which, cs)
  }

  ghost predicate AnswersWith(c: Call, which: Flux.Which, cs: seq<Condition>) {
    && (c.pc.Look? || c.pc.Write?) && c.pc.task == PutFlux(which)
    && c.answer.GotFlux? && c.answer.flux.conditions == cs
  }

  /** A call was answered with an object whose first Ready condition is True. */
  ghost predicate SeenReady(t: seq<Call>, which: Flux.Which) {
    exists cs, i: nat :: Answered(t, which, cs) && TrueAt(cs, i)
  }

  ghost predicate TrueAt(cs: seq<Condition>, i: nat) {
    && i < |cs| && cs[i].kind == "Ready" && cs[i].status == CondTrue
    && forall j :: 0 <= j < i ==> cs[j].kind != "Ready"
  }

  ghost predicate Recorded(p: Pass, t: seq<Call>) {
    forall which :: which in p.got ==> Answered(t, which, p.got[which])
  }

  lemma CallIsRecorded(p: Pass, t: seq<Call>, a: Answer)
    requires Recorded(p, t)
    ensures Recorded(Passes.Step(p, a), t + [Call(p.pc, a)])
  {
    hide AfterGetKro, AfterPatchAnnotation, AfterLoadConfig, AfterGetForFinalizer, AfterUpdateFinalizer,
      AfterCheckRequest, AfterReconcileAccess, AfterGetCluster, AfterGetRequest, AfterResolveNamespace,
      AfterLook, AfterWrite, AfterCountRGDs, AfterDeleteObject, AfterConfirmGone, AfterRevokeAccess,
      AfterRemoveFinalizer, AfterPatchStatus, FailProgressing;
    var q, c := Passes.Step(p, a), Call(p.pc, a);
    forall which | which in q.got ensures Answered(t + [c], which, q.got[which]) {
      if which in p.got && q.got[which] == p.got[which] {
        var j :| 0 <= j < |t| && AnswersWith(t[j], which, p.got[which]);
        assert AnswersWith((t + [c])[j], which, q.got[which]);
      } else {
        assert AnswersWith((t + [c])[|t|], which, q.got[which]);
      }
    }
  }

  lemma {:induction false} TracedIsRecorded(p: Pass, t: seq<Call>)
    requires Traced(p, t)
    ensures Recorded(p, t)
    decreases |t|
  {
    hide Passes.Step, Recorded;
    if t == [] {
      FreshIsRecorded(p);
    } else {
      var last := |t| - 1;
      var before := After(Fresh(p), t[..last]);
      TracedPrefix(p, t);
      TracedIsRecorded(before, t[..last]);
      CallIsRecorded(before, t[..last], t[last].answer);
      assert t == t[..last] + [t[last]];
    }
  }

  lemma FreshIsRecorded(p: Pass)
    requires p == Fresh(p)
    ensures Recorded(p, [])
  {
  }

  /** After a revocation was attempted, the pass only leaves, and no Flux object comes back meanwhile. */
  ghost predicate CleanAt(s: System, k: Key) {
    k in s.passes && Revoked(TraceOf(s, k)) ==>
      NoFlux(s.world, k) && (s.passes[k].pc.RemoveFinalizer? || Leaving(s.passes[k]))
  }

  lemma CallKeepsClean(s: System, j: Key, a: Answer, h: Hidden, k: Key)
    requires j in s.passes && Safety.SafeAt(s, j) && Safety.SafeAt(s, k) && CleanAt(s, k)
    requires Lawful(s.world, s.passes[j], s.config.stored.config, s.config.epoch, a, h)
    ensures CleanAt(Calls(s, j, a, h), k)
  {
    hide MovesOn, Stays, Accesses;
    hide Revoked, Lawful, Safety.StoreSafe, Safety.PassSafe, Watch, Effect, Passes.Step;
    var p := s.passes[j];
    if j == k {
      AppendKeepsEntered(TraceOf(s, k), Call(p.pc, a));
      RevokingLeaves(s.world, p, a, h);
    } else {
      Safety.PassesAreIsolated(s.world, p, a, h, k);
      Safety.IsolationIsBenign(s.world, Effect(s.world, p, a, h), k);
    }
  }

  lemma RevokingLeaves(w: World, p: Pass, a: Answer, h: Hidden)
    requires Safety.PassSafe(w, p)
    ensures p.pc.RevokeAccess? || ((p.pc.RemoveFinalizer? || Leaving(p)) && NoFlux(w, p.key)) ==>
      NoFlux(Effect(w, p, a, h), p.key)
      && (Passes.Step(p, a).pc.RemoveFinalizer? || Leaving(Passes.Step(p, a)))
  {
    hide AfterGetKro, AfterPatchAnnotation, AfterLoadConfig, AfterGetForFinalizer, AfterUpdateFinalizer,
      AfterCheckRequest, AfterReconcileAccess, AfterGetCluster, AfterGetRequest, AfterResolveNamespace,
      AfterLook, AfterWrite, AfterCountRGDs, AfterDeleteObject, AfterConfirmGone, AfterRevokeAccess,
      AfterRemoveFinalizer, AfterPatchStatus, FailProgressing, Safety.WithAccess, EffectOfLook, EffectOfWrite,
      EffectOfDelete, RevokeRequests;
  }

  lemma ReachableIsClean(s: System, k: Key)
    requires Reachable(s)
    ensures CleanAt(s, k)
  {
    hide Apply, Enabled, Initial, Reachable, CleanAt, Safety.SafeAt;
    forall s | Initial(s) ensures Safety.Safe(s) && CleanAt(s, k) {
      Safety.InitialIsSafe(s);
      InitialIsClean(s, k);
    }
    forall s, a, t | Safety.Safe(s) && CleanAt(s, k) && Joined(s, a, t) ensures Safety.Safe(t) && CleanAt(t, k) {
      forall j ensures Safety.SafeAt(t, j) { Safety.StepIsSafe(s, a, j); }
      StepIsClean(s, a, k);
    }
    HoldsWhereReachable(s => Safety.Safe(s) && CleanAt(s, k), s);
  }

  lemma InitialIsClean(s: System, k: Key)
    requires Initial(s)
    ensures CleanAt(s, k)
  {
  }

  lemma StepIsClean(s: System, a: Action, k: Key)
    requires Safety.Safe(s) && CleanAt(s, k) && s.config.history != [] && Enabled(s, a)
    ensures CleanAt(Apply(s, a), k)
  {
    hide Effect, Act, Calls, Lawful, Permitted, Observe, Settle, Safety.SafeAt;
    match a
    case Environment(e) => Safety.EnvironmentIsBenign(s.world, e, k);
    case PassCalls(j, answer, h) =>
      assert Safety.SafeAt(s, j) && Safety.SafeAt(s, k);
      CallKeepsClean(s, j, answer, h, k);
    case _ =>
  }

  // ---------- what a finished teardown leaves ----------

  /** The server let go of the Kro in this pass. */
  ghost predicate Released(t: seq<Call>) { exists c <- t :: Releases(c) }

  predicate Releases(c: Call) { c.pc.RemoveFinalizer? && c.answer.GotKro? }

  ghost predicate ReleasedAt(s: System, k: Key) {
    k in s.passes && Released(TraceOf(s, k)) ==>
      NoFlux(s.world, k) && NoRequests(s.world, k) && Leaving(s.passes[k])
  }

  lemma AppendReleases(t: seq<Call>, c: Call)
    ensures Released(t + [c]) <==> Released(t) || Releases(c)
  {
    assert forall d <- t + [c] :: d in t || d == c;
    assert forall d <- t :: d in t + [c];
    assert c in t + [c];
  }

  lemma ReleasingEndsIt(w: World, p: Pass, a: Answer, h: Hidden)
    requires Safety.PassSafe(w, p)
    requires Releases(Call(p.pc, a)) || (Leaving(p) && NoFlux(w, p.key) && NoRequests(w, p.key))
    ensures var v := Effect(w, p, a, h); NoFlux(v, p.key) && NoRequests(v, p.key) && Leaving(Passes.Step(p, a))
  {
    hide AfterRemoveFinalizer, PutKro, Safety.WithAccess;
  }

  lemma OthersReleaseNothing(w: World, v: World, k: Key)
    requires NoFlux(w, k) && NoRequests(w, k) && Safety.Benign(w, v, k)
    ensures NoFlux(v, k) && NoRequests(v, k)
  {
  }

  lemma StepKeepsReleased(s: System, a: Action, k: Key)
    requires Safety.Safe(s) && ReleasedAt(s, k) && s.config.history != [] && Enabled(s, a)
    ensures ReleasedAt(Apply(s, a), k)
  {
    hide Effect, Act, Passes.Step, Lawful, Permitted, Observe, Settle, Safety.StoreSafe, Safety.PassSafe,
      Safety.Benign, Safety.SameTenant, NoFlux, NoRequests, Released, Releases, Watch;
    assert Safety.SafeAt(s, k);
    match a
    case Environment(e) =>
      Safety.EnvironmentIsBenign(s.world, e, k);
      if ReleasedAt(s, k) && k in s.passes && Released(TraceOf(s, k)) {
        OthersReleaseNothing(s.world, Act(s.world, e), k);
      }
    case PassCalls(j, answer, h) =>
      assert Safety.SafeAt(s, j);
      CallKeepsReleased(s, j, answer, h, k);
    case PassStarts(j) => NothingIsReleased();
    case _ =>
  }

  lemma CallKeepsReleased(s: System, j: Key, a: Answer, h: Hidden, k: Key)
    requires j in s.passes && Safety.SafeAt(s, j) && ReleasedAt(s, k)
    ensures ReleasedAt(Calls(s, j, a, h), k)
  {
    hide Effect, Passes.Step, Safety.StoreSafe, Safety.PassSafe, Safety.Benign, Safety.SameTenant, NoFlux, NoRequests,
      Released, Releases, Watch;
    var p := s.passes[j];
    AppendReleases(TraceOf(s, j), Call(p.pc, a));
    if j == k {
      if Released(TraceOf(s, k)) || Releases(Call(p.pc, a)) { ReleasingEndsIt(s.world, p, a, h); }
    } else if k in s.passes && Released(TraceOf(s, k)) {
      Safety.PassesAreIsolated(s.world, p, a, h, k);
      Safety.IsolationIsBenign(s.world, Effect(s.world, p, a, h), k);
      OthersReleaseNothing(s.world, Effect(s.world, p, a, h), k);
    }
  }

  lemma NothingIsReleased()
    ensures !Released([])
  {
  }

  lemma InitialIsReleased(s: System, k: Key)
    requires Initial(s)
    ensures ReleasedAt(s, k)
  {
  }

  /** When a pass has had the finalizer removed, nothing of the Kro is left, or comes back, until it is over. */
  lemma NothingIsLeftWhenReleased(s: System, k: Key)
    requires Reachable(s)
    ensures k in s.passes && Released(TraceOf(s, k)) ==> NoFlux(s.world, k) && NoRequests(s.world, k)
  {
    hide Apply, Enabled, Initial, Reachable, ReleasedAt, Safety.SafeAt, NoFlux, NoRequests, Released;
    forall s | Initial(s) ensures Safety.Safe(s) && ReleasedAt(s, k) {
      Safety.InitialIsSafe(s);
      InitialIsReleased(s, k);
    }
    forall s, a, t | Safety.Safe(s) && ReleasedAt(s, k) && Joined(s, a, t)
      ensures Safety.Safe(t) && ReleasedAt(t, k)
    {
      forall j ensures Safety.SafeAt(t, j) { Safety.StepIsSafe(s, a, j); }
      StepKeepsReleased(s, a, k);
    }
    HoldsWhereReachable(s => Safety.Safe(s) && ReleasedAt(s, k), s);
    ReleasedMeansNothingLeft(s, k);
  }

  lemma ReleasedMeansNothingLeft(s: System, k: Key)
    requires ReleasedAt(s, k)
    ensures k in s.passes && Released(TraceOf(s, k)) ==> NoFlux(s.world, k) && NoRequests(s.world, k)
  {
    hide NoFlux, NoRequests, Released;
  }

  /**
   In every reachable state the stored status of a Kro is coherent: at most one Ready condition, phase
   Ready exactly when it is True, and one observed generation.
   */
  lemma StatusesAgree(s: System, k: Key)
    requires Reachable(s) && k in s.world.kros
    ensures Agrees(s.world.kros[k].status)
  {
    hide Reachable, Honest;
    ReachableIsHonest(s, k);
  }

  /**
   A pass that is about to report Ready has a reason to. Installing: once the domain logic was entered,
   each of the three objects answered one of this pass's own calls with a True Ready condition.
   Dismantling: none of the three objects exists any more.
   */
  lemma ReadyIsEarned(s: System, k: Key)
    requires Reachable(s) && k in s.passes && Leaving(s.passes[k])
    requires s.passes[k].obj.status.phase == Ready
    ensures var p, t := s.passes[k], TraceOf(s, k);
      && (p.mode == Creating && HasEntered(t) ==>
            forall which :: SeenReady(t, which))
      && (p.mode == Deleting ==> NoFlux(s.world, k))
  {
    hide Reachable, Traced, Answered, NoFlux, Revoked, HasEntered, Coherent;
    var p, t := s.passes[k], TraceOf(s, k);
    ReachableIsHonest(s, k);
    ReachableIsTraced(s, k);
    TracedIsRecorded(p, t);
    ReachableIsClean(s, k);
    if p.mode == Creating && HasEntered(t) {
      ReadyIsSeen(p, t, Flux.Oci);
      ReadyIsSeen(p, t, Flux.Main);
      ReadyIsSeen(p, t, Flux.Crds);
      forall which: Flux.Which ensures SeenReady(t, which) {
        match which case Oci => case Main => case Crds =>
      }
    }
  }

  lemma ReadyIsSeen(p: Pass, t: seq<Call>, which: Flux.Which)
    requires Recorded(p, t) && Flux.SaysReady(Conditions(p, which))
    ensures SeenReady(t, which)
  {
    hide Answered;
    var cs := Conditions(p, which);
    var i: nat :| i < |cs| && Flux.FirstReady(cs, i) && cs[i].status == CondTrue;
    assert Answered(t, which, cs) && TrueAt(cs, i);
  }

  // ---------- the deferred write ----------

  ghost predicate Loads(t: seq<Call>) { exists j :: 0 <= j < |t| && t[j].pc.LoadConfig? }

  ghost predicate Writes(t: seq<Call>) { exists j :: 0 <= j < |t| && t[j].pc.PatchStatus? }

  /** `loaded`, `wrote`: the pass has called LoadConfig, PatchStatus. */
  ghost predicate Exact(p: Pass, loaded: bool, wrote: bool) {
    && (p.pc.GetKro? || p.pc.PatchAnnotation? || p.pc.LoadConfig? ==> !loaded)
    && (!p.pc.Done? ==> !wrote)
    && (p.pc.GetKro? || p.pc.PatchAnnotation? || p.pc.LoadConfig? || p.pc.Done? || loaded)
    && (p.pc.PatchStatus? ==> p.obj.status != p.snapshot)
    && (p.pc.Done? ==> (wrote <==> loaded && p.obj.status != p.snapshot))
  }

  ghost predicate ExactAfter(p: Pass, loaded: bool, wrote: bool, q: Pass) {
    Exact(q, loaded || p.pc.LoadConfig?, wrote || p.pc.PatchStatus?)
  }

  lemma CallIsExact(p: Pass, loaded: bool, wrote: bool, a: Answer)
    requires Exact(p, loaded, wrote)
    ensures ExactAfter(p, loaded, wrote, Passes.Step(p, a))
  {
    hide Passes.Step;
  }

  lemma {:induction false} TracedIsExact(p: Pass, t: seq<Call>)
    requires Traced(p, t)
    ensures Exact(p, Loads(t), Writes(t))
    decreases |t|
  {
    hide Passes.Step, Exact;
    if t == [] {
      FreshIsExact(p);
    } else {
      var last := |t| - 1;
      var before := After(Fresh(p), t[..last]);
      TracedPrefix(p, t);
      TracedIsExact(before, t[..last]);
      CallIsExact(before, Loads(t[..last]), Writes(t[..last]), t[last].answer);
      LastCallCounts(t);
    }
  }

  lemma LastCallCounts(t: seq<Call>)
    requires t != []
    ensures Loads(t) <==> Loads(t[..|t| - 1]) || t[|t| - 1].pc.LoadConfig?
    ensures Writes(t) <==> Writes(t[..|t| - 1]) || t[|t| - 1].pc.PatchStatus?
  {
    forall j | 0 <= j < |t| - 1 ensures t[..|t| - 1][j] == t[j] {}
  }

  lemma FreshIsExact(p: Pass)
    requires p == Fresh(p)
    ensures Exact(p, Loads([]), Writes([]))
  {
  }

  /** Call `j` answered with an object whose status is `st`, and the next one loads the config. */
  ghost predicate ReadAt(t: seq<Call>, j: nat, st: Status) {
    j + 1 < |t| && t[j + 1].pc.LoadConfig? && t[j].answer.GotKro? && t[j].answer.kro.status == st
  }

  /** The status the pass began with, once it has loaded the config. */
  ghost predicate Began(t: seq<Call>, st: Status) { exists j: nat :: ReadAt(t, j, st) }

  ghost predicate Grounded(p: Pass, t: seq<Call>) {
    && (p.pc.LoadConfig? ==> t != [] && t[|t| - 1].answer.GotKro? && t[|t| - 1].answer.kro.status == p.snapshot)
    && (Loads(t) ==> Began(t, p.snapshot))
  }

  lemma CallIsGrounded(p: Pass, t: seq<Call>, a: Answer)
    requires Grounded(p, t) && Exact(p, Loads(t), Writes(t))
    ensures Grounded(Passes.Step(p, a), t + [Call(p.pc, a)])
  {
    hide Passes.Step;
    var u := t + [Call(p.pc, a)];
    assert u[..|u| - 1] == t;
    LastCallCounts(u);
    if Loads(t) {
      var j: nat :| ReadAt(t, j, p.snapshot);
      assert ReadAt(u, j, p.snapshot);
    } else if p.pc.LoadConfig? {
      assert ReadAt(u, |t| - 1, p.snapshot);
    }
  }

  lemma {:induction false} TracedIsGrounded(p: Pass, t: seq<Call>)
    requires Traced(p, t)
    ensures Grounded(p, t)
    decreases |t|
  {
    hide Passes.Step, Exact, Grounded, Loads, Writes;
    if t == [] {
      FreshIsGrounded(p);
    } else {
      var last := |t| - 1;
      var before := After(Fresh(p), t[..last]);
      TracedPrefix(p, t);
      TracedIsGrounded(before, t[..last]);
      TracedIsExact(before, t[..last]);
      CallIsGrounded(before, t[..last], t[last].answer);
      assert t == t[..last] + [t[last]];
    }
  }

  lemma FreshIsGrounded(p: Pass)
    requires p == Fresh(p)
    ensures Grounded(p, [])
  {
  }

  /**
   Write-back is exact: a pass that is over has tried to patch the status iff it came as far as loading
   the config and ends with another status than the one it read before that.
   */
  lemma WriteBackIsExact(s: System, k: Key)
    requires Reachable(s) && k in s.passes && s.passes[k].pc.Done?
    ensures var p, t := s.passes[k], TraceOf(s, k);
      && (Writes(t) <==> Loads(t) && p.obj.status != p.snapshot)
      && (Loads(t) ==> Began(t, p.snapshot))
  {
    hide Reachable, Traced;
    ReachableIsTraced(s, k);
    TracedIsExact(s.passes[k], TraceOf(s, k));
    TracedIsGrounded(s.passes[k], TraceOf(s, k));
  }
}
