/**
 Deletion does not depend on what the ProviderConfig says: two teardown passes that differ in nothing
 but the config they loaded make the same calls, allow the same answers and change the stores alike;
 at most the fallback requeue tells them apart.
 */
module TwoRuns {
  import opened Wrappers
  import opened Resources
  import opened Flux
  import opened Passes
  import opened Worlds
  import Safety
  import Statuses
  import Versions

  /** Both passes are at the same call, or both are leaving, each polling at its own config's interval. */
  ghost predicate SamePlace(p: Pass, q: Pass) {
    || p.pc == q.pc
    || (&& ((p.pc.PatchStatus? && q.pc.PatchStatus?) || (p.pc.Done? && q.pc.Done?))
        && p.pc.result.failed == q.pc.result.failed
        && p.pc.result.requeue == Poll(p) && q.pc.result.requeue == Poll(q))
  }

  /** The passes differ in their configs, neither of them nil, and in nothing else but the poll interval. */
  ghost predicate Alike(p: Pass, q: Pass) {
    && p.mode == Deleting && !p.pc.Look? && !p.pc.Write?
    && p.config.Some? && q.config.Some?
    && q == p.(config := q.config, pc := q.pc) && SamePlace(p, q)
  }

  /** At the same call, nothing but the config differs. */
  ghost predicate Twins(p: Pass, q: Pass) {
    p.mode == Deleting && p.config.Some? && q.config.Some? && q == p.(config := q.config)
  }

  lemma ReturningAlike(p: Pass, q: Pass, n: int)
    requires Twins(p, q)
    ensures Alike(Return(p, n), Return(q, n))
  {
  }

  lemma FailingAlike(p: Pass, q: Pass, message: string)
    requires Twins(p, q)
    ensures Alike(Fail(p), Fail(q))
    ensures Alike(FailProgressing(p, message), FailProgressing(q, message))
    ensures Alike(FailTerminating(p, message), FailTerminating(q, message))
    ensures Alike(FailClusters(p), FailClusters(q))
  {
    hide Statuses.MarkTerminatingWithReason, Statuses.MarkProgressing, Statuses.Agrees;
  }

  lemma ChecksAlike(p: Pass, q: Pass, c: ClusterKind, a: Answer)
    requires Twins(p, q)
    ensures Alike(AfterCheckRequest(p, c, a), AfterCheckRequest(q, c, a))
  {
    hide FailProgressing;
    FailingAlike(p, q, "failed to check access requests in deletion");
  }

  lemma AccessAlike(p: Pass, q: Pass, a: Answer)
    requires Twins(p, q)
    ensures Alike(AfterReconcileAccess(p, a), AfterReconcileAccess(q, a))
  {
    hide FailClusters, WithoutCluster;
    FailingAlike(p, q, "");
    if a.Delay? && a.seconds > 0 { WithoutAlike(p, q, a.seconds); }
  }

  lemma WithClustersAlike(p: Pass, q: Pass)
    requires Twins(p, q)
    ensures Alike(WithClusters(p), WithClusters(q))
  {
    hide Return, Statuses.MarkTerminating, Statuses.Agrees;
  }

  lemma WithoutAlike(p: Pass, q: Pass, n: int)
    requires Twins(p, q) && n > 0
    ensures Alike(WithoutCluster(p, n), WithoutCluster(q, n))
  {
    hide WithClusters, Return;
    WithClustersAlike(p.(delay := 0), q.(delay := 0));
  }

  lemma ClustersAlike(p: Pass, q: Pass, c: ClusterKind, a: Answer)
    requires Twins(p, q)
    ensures Alike(AfterGetCluster(p, c, a), AfterGetCluster(q, c, a))
  {
    hide FailClusters, WithClusters, WithoutCluster, Return;
    FailingAlike(p, q, "");
    WithoutAlike(p, q, 10);
    WithClustersAlike(p, q);
  }

  lemma RequestsAlike(p: Pass, q: Pass, c: ClusterKind, a: Answer)
    requires Twins(p, q)
    ensures Alike(AfterGetRequest(p, c, a), AfterGetRequest(q, c, a))
  {
    hide FailClusters, WithClusters, SecretName;
    FailingAlike(p, q, "");
    if a.GotRequest? {
      WithClustersAlike(p.(ctx := p.ctx.(mcpSecret := SecretName(a.request))),
        q.(ctx := p.ctx.(mcpSecret := SecretName(a.request))));
      WithClustersAlike(p.(ctx := p.ctx.(workloadSecret := SecretName(a.request))),
        q.(ctx := p.ctx.(workloadSecret := SecretName(a.request))));
    }
  }

  lemma NamespaceAlike(p: Pass, q: Pass, a: Answer)
    requires Twins(p, q)
    ensures Alike(AfterResolveNamespace(p, a), AfterResolveNamespace(q, a))
  {
    hide Fail;
    FailingAlike(p, q, "");
  }

  lemma CountAlike(p: Pass, q: Pass, a: Answer)
    requires Twins(p, q)
    ensures Alike(AfterCountRGDs(p, a), AfterCountRGDs(q, a))
  {
    hide FailTerminating, Return, BeginTeardown, Statuses.MarkTerminatingWithReason, Report;
    FailingAlike(p, q, ErrorOf(a));
    BeginningAlike(p, q);
    BlockingAlike(p, q);
  }

  lemma BlockingAlike(p: Pass, q: Pass)
    requires Twins(p, q)
    ensures var obj := Statuses.MarkTerminatingWithReason(p.obj, p.now, "Terminating", BLOCKED_MESSAGE);
      var rs := ManagedResources(Tenant(p.key), Terminating);
      Alike(Return(Report(p.(obj := obj), rs), 10), Return(Report(q.(obj := obj), rs), 10))
  {
    hide Return, Statuses.MarkTerminatingWithReason, ManagedResources;
    var obj := Statuses.MarkTerminatingWithReason(p.obj, p.now, "Terminating", BLOCKED_MESSAGE);
    var rs := ManagedResources(Tenant(p.key), Terminating);
    ReturningAlike(Report(p.(obj := obj), rs), Report(q.(obj := obj), rs), 10);
  }

  lemma BeginningAlike(p: Pass, q: Pass)
    requires Twins(p, q)
    ensures Alike(BeginTeardown(p), BeginTeardown(q))
  {
    hide ManagedResources;
  }

  lemma DeletingAlike(p: Pass, q: Pass, i: nat, ref: FluxRef, a: Answer)
    requires Twins(p, q)
    ensures Alike(AfterDeleteObject(p, i, ref, a), AfterDeleteObject(q, i, ref, a))
  {
    hide FailTerminating;
    FailingAlike(p, q, ErrorOf(a));
  }

  lemma ConfirmingAlike(p: Pass, q: Pass, i: nat, a: Answer)
    requires Twins(p, q)
    ensures Alike(AfterConfirmGone(p, i, a), AfterConfirmGone(q, i, a))
  {
    hide Return, Statuses.MarkReady, Statuses.Agrees;
    ReturningAlike(p, q, 10);
    ReturningAlike(p.(lingering := true), q.(lingering := true), 10);
  }

  lemma RevokingAlike(p: Pass, q: Pass, a: Answer)
    requires Twins(p, q)
    ensures Alike(AfterRevokeAccess(p, a), AfterRevokeAccess(q, a))
    ensures Alike(AfterRemoveFinalizer(p, a), AfterRemoveFinalizer(q, a))
  {
    hide FailTerminating, Return;
    FailingAlike(p, q, "failed cluster access reconcile delete");
    FailingAlike(p, q, "failed to remove finalizer");
    if a.Delay? { ReturningAlike(p, q, a.seconds); }
    if a.GotKro? { ReturningAlike(p.(obj := a.kro), q.(obj := a.kro), 0); }
  }

  lemma StatusAlike(p: Pass, q: Pass, a: Answer)
    requires Alike(p, q) && (p.pc.PatchStatus? || p.pc.Done?)
    ensures Alike(Passes.Step(p, a), Passes.Step(q, a))
  {
    match p.pc
    case PatchStatus(_) =>
    case Done(_) =>
  }

  predicate InTeardown(pc: Pc) {
    !pc.GetKro? && !pc.PatchAnnotation? && !pc.LoadConfig? && !pc.GetForFinalizer? && !pc.RecreateKro?
      && !pc.UpdateFinalizer?
  }

  lemma FirstStepsAlike(p: Pass, q: Pass, a: Answer)
    requires Twins(p, q)
    requires p.pc.CheckRequest? || p.pc.ReconcileAccess? || p.pc.GetCluster? || p.pc.GetRequest?
      || p.pc.ResolveNamespace?
    ensures Alike(Passes.Step(p, a), Passes.Step(q, a))
  {
    hide Alike, Twins, AfterCheckRequest, AfterReconcileAccess, AfterGetCluster, AfterGetRequest, AfterResolveNamespace,
      MovesOn, Stays, Accesses;
    TwinsAreTogether(p, q);
    match p.pc
    case CheckRequest(c) => ChecksAlike(p, q, c, a);
    case ReconcileAccess => AccessAlike(p, q, a);
    case GetCluster(c) => ClustersAlike(p, q, c, a);
    case GetRequest(c) => RequestsAlike(p, q, c, a);
    case ResolveNamespace => NamespaceAlike(p, q, a);
  }

  lemma LastStepsAlike(p: Pass, q: Pass, a: Answer)
    requires Twins(p, q)
    requires p.pc.CountRGDs? || p.pc.DeleteObject? || p.pc.ConfirmGone? || p.pc.RevokeAccess? || p.pc.RemoveFinalizer?
    ensures Alike(Passes.Step(p, a), Passes.Step(q, a))
  {
    hide Alike, Twins, AfterCountRGDs, AfterDeleteObject, AfterConfirmGone, AfterRevokeAccess, AfterRemoveFinalizer,
      MovesOn, Stays, Shows;
    TwinsAreTogether(p, q);
    match p.pc
    case CountRGDs => CountAlike(p, q, a);
    case DeleteObject(i, ref) => DeletingAlike(p, q, i, ref, a);
    case ConfirmGone(i, _) => ConfirmingAlike(p, q, i, a);
    case RevokeAccess => RevokingAlike(p, q, a);
    case RemoveFinalizer => RevokingAlike(p, q, a);
  }

  lemma TwinsAreTogether(p: Pass, q: Pass)
    requires Twins(p, q)
    ensures p.pc == q.pc
  {
  }

  lemma StepAlike(p: Pass, q: Pass, a: Answer)
    requires Alike(p, q) && InTeardown(p.pc)
    ensures Alike(Passes.Step(p, a), Passes.Step(q, a)) && InTeardown(Passes.Step(p, a).pc)
  {
    hide Alike, Twins, Passes.Step;
    AlikeAreTwins(p, q);
    StaysInTeardown(p, a);
    if Leaving(p) {
      StatusAlike(p, q, a);
    } else if p.pc.CheckRequest? || p.pc.ReconcileAccess? || p.pc.GetCluster? || p.pc.GetRequest?
      || p.pc.ResolveNamespace?
    {
      FirstStepsAlike(p, q, a);
    } else {
      LastStepsAlike(p, q, a);
    }
  }

  lemma AlikeAreTwins(p: Pass, q: Pass)
    requires Alike(p, q)
    ensures p.mode == Deleting && !p.pc.Look? && !p.pc.Write?
    ensures Leaving(p) || (p.pc == q.pc && Twins(p, q))
  {
  }

  lemma StaysInTeardown(p: Pass, a: Answer)
    requires InTeardown(p.pc) && p.mode == Deleting && !p.pc.Look? && !p.pc.Write?
    ensures InTeardown(Passes.Step(p, a).pc)
  {
    hide AfterCheckRequest, AfterReconcileAccess, AfterGetCluster, AfterGetRequest, AfterResolveNamespace,
      AfterCountRGDs, AfterDeleteObject, AfterConfirmGone, AfterRevokeAccess,
      AfterRemoveFinalizer, AfterPatchStatus, Statuses.Agrees, AllReady;
    match p.pc
    case CheckRequest(_) =>
    case ReconcileAccess =>
    case GetCluster(_) =>
    case GetRequest(_) =>
    case ResolveNamespace =>
    case CountRGDs =>
    case DeleteObject(_, _) =>
    case ConfirmGone(_, _) =>
    case RevokeAccess =>
    case RemoveFinalizer =>
    case PatchStatus(_) =>
    case Done(_) =>
  }

  // ---------- the stores ----------

  lemma CallsAlike(w: World, p: Pass, q: Pass, cache: Option<ProviderConfig>, epoch: nat, a: Answer, h: Hidden)
    requires Alike(p, q) && InTeardown(p.pc)
    ensures Lawful(w, p, cache, epoch, a, h) <==> Lawful(w, q, cache, epoch, a, h)
    ensures Effect(w, p, a, h) == Effect(w, q, a, h)
  {
    hide PutKro, RevokeRequests, MakeRequests, RequestDeletion, NoRequests, AllGranted, RGDs, Poll;
  }

  /**
   What happens next: a call of the pass is answered, or one of the pass `of` of another Kro, which may have to do
   with any config; or somebody else moves.
   */
  datatype Turn =
    | Own(answer: Answer, hidden: Hidden)
    | Foreign(of: Pass, cached: Option<ProviderConfig>, epoch: nat, answer: Answer, hidden: Hidden)
    | Other(move: Env)

  /** What others make of the world: calls the stores do not allow, and moves not permitted, are skipped. */
  function Elsewhere(w: World, k: Key, turn: Turn): World
    requires !turn.Own?
  {
    match turn
    case Foreign(q, c, n, a, h) => if q.key != k && Lawful(w, q, c, n, a, h) then Effect(w, q, a, h) else w
    case Other(e) => if Permitted(w, e) then Act(w, e) else w
  }

  /** The world and the pass after some turns; calls the stores do not allow are skipped. */
  function Play(w: World, p: Pass, cache: Option<ProviderConfig>, epoch: nat, turns: seq<Turn>): (World, Pass)
    decreases |turns|
  {
    if turns == [] then (w, p)
    else
      match turns[0]
      case Own(a, h) =>
        if Lawful(w, p, cache, epoch, a, h) then
          Play(Effect(w, p, a, h), Passes.Step(p, a), cache, epoch, turns[1..])
        else Play(w, p, cache, epoch, turns[1..])
      case _ => Play(Elsewhere(w, p.key, turns[0]), p, cache, epoch, turns[1..])
  }

  lemma {:induction false} PlaysAlike(w: World, p: Pass, q: Pass,
      c: Option<ProviderConfig>, d: Option<ProviderConfig>, m: nat, n: nat, turns: seq<Turn>)
    requires Alike(p, q) && InTeardown(p.pc)
    ensures var (v, after) := Play(w, p, c, m, turns); var (u, also) := Play(w, q, d, n, turns);
      v == u && Alike(after, also)
    decreases |turns|
  {
    hide Alike, Lawful, Effect, Elsewhere, Passes.Step, InTeardown;
    if turns != [] {
      match turns[0]
      case Own(a, h) =>
        CallsAlike(w, p, q, c, m, a, h);
        LoadsNoMore(w, q, c, m, d, n, a, h, p);
        StepAlike(p, q, a);
        PlaysAlike(w, p, q, c, d, m, n, turns[1..]);
        PlaysAlike(Effect(w, p, a, h), Passes.Step(p, a), Passes.Step(q, a), c, d, m, n, turns[1..]);
      case _ =>
        AlikeHaveOneKey(p, q);
        PlaysAlike(Elsewhere(w, p.key, turns[0]), p, q, c, d, m, n, turns[1..]);
    }
  }

  lemma AlikeHaveOneKey(p: Pass, q: Pass)
    requires Alike(p, q)
    ensures p.key == q.key
  {
  }

  /** What other passes do on the platform, they do to their own Kros. */
  lemma ForeignTurnsAreElsewhere(w: World, k: Key, turn: Turn)
    requires turn.Foreign? && Safety.PassSafe(w, turn.of)
    ensures Safety.SameTenant(w, Elsewhere(w, k, turn), k)
  {
    hide Safety.SameTenant, Safety.PassSafe, Lawful, Effect;
    Safety.SameTenantIsReflexive(w, k);
    if turn.of.key != k { Safety.PassesAreIsolated(w, turn.of, turn.answer, turn.hidden, k); }
  }

  lemma LoadsNoMore(w: World, q: Pass, c: Option<ProviderConfig>, m: nat, d: Option<ProviderConfig>, n: nat,
    a: Answer, h: Hidden, p: Pass)
    requires Alike(p, q) && InTeardown(p.pc)
    ensures Lawful(w, q, c, m, a, h) == Lawful(w, q, d, n, a, h)
  {
    hide PutKro, RevokeRequests, MakeRequests, RequestDeletion, NoRequests, AllGranted, RGDs, Poll;
  }

  /**
   Deletion is independent of config contents: for a pass about to load its config for a Kro that is being
   deleted, any two configs, whatever happens next, from the same world, and happens to both alike, calls of
   other Kros' passes under whatever configs included, leave the same world, in passes that are at the same
   call and agree on everything but the fallback requeue.
   */
  lemma DeletionIgnoresConfig(w: World, p: Pass, c: ProviderConfig, d: ProviderConfig, epoch: nat, turns: seq<Turn>)
    requires p.pc.LoadConfig? && p.obj.deleting
    ensures var (v, after) := Play(w, Passes.Step(p, Loaded(Some(c), epoch)), Some(c), epoch, turns);
      var (u, also) := Play(w, Passes.Step(p, Loaded(Some(d), epoch)), Some(d), epoch, turns);
      && v == u
      && also == after.(config := Some(d), pc := also.pc)
      && (Leaving(after) <==> Leaving(also)) && (!Leaving(after) ==> after.pc == also.pc)
      && (Leaving(after) ==>
            && ResultOf(after).failed == ResultOf(also).failed
            && (ResultOf(after).requeue == ResultOf(also).requeue
                || (ResultOf(after).requeue == Versions.PollInterval(c)
                  && ResultOf(also).requeue == Versions.PollInterval(d))))
  {
    var p1, p2 := Passes.Step(p, Loaded(Some(c), epoch)), Passes.Step(p, Loaded(Some(d), epoch));
    assert Alike(p1, p2);
    PlaysAlike(w, p1, p2, Some(c), Some(d), epoch, epoch, turns);
    PlayKeepsConfig(w, p1, Some(c), epoch, turns);
    PlayKeepsConfig(w, p2, Some(d), epoch, turns);
    hide Play, Passes.Step;
  }

  lemma {:induction false} PlayKeepsConfig(w: World, p: Pass, cache: Option<ProviderConfig>, epoch: nat,
    turns: seq<Turn>)
    requires InTeardown(p.pc) && p.mode == Deleting && !p.pc.Look? && !p.pc.Write?
    ensures Play(w, p, cache, epoch, turns).1.config == p.config
    decreases |turns|
  {
    hide Lawful, Effect, Elsewhere, Passes.Step;
    if turns != [] {
      match turns[0]
      case Own(a, h) =>
        StaysTearing(p, a);
        PlayKeepsConfig(w, p, cache, epoch, turns[1..]);
        PlayKeepsConfig(Effect(w, p, a, h), Passes.Step(p, a), cache, epoch, turns[1..]);
      case _ => PlayKeepsConfig(Elsewhere(w, p.key, turns[0]), p, cache, epoch, turns[1..]);
    }
  }

  lemma AccessStaysTearing(p: Pass, a: Answer)
    requires InTeardown(p.pc) && p.mode == Deleting && !p.pc.Look? && !p.pc.Write?
    requires p.pc.CheckRequest? || p.pc.ReconcileAccess? || p.pc.GetCluster? || p.pc.GetRequest?
    ensures var q := Passes.Step(p, a);
      InTeardown(q.pc) && q.mode == Deleting && !q.pc.Look? && !q.pc.Write? && q.config == p.config
  {
    hide AfterCheckRequest, AfterReconcileAccess, AfterGetCluster, AfterGetRequest, AfterResolveNamespace,
      AfterCountRGDs, AfterDeleteObject, AfterConfirmGone, AfterRevokeAccess,
      AfterRemoveFinalizer, AfterPatchStatus, Statuses.Agrees, AllReady, Poll;
    match p.pc
    case CheckRequest(_) =>
    case ReconcileAccess =>
    case GetCluster(_) =>
    case GetRequest(_) =>
  }

  lemma RemovalStaysTearing(p: Pass, a: Answer)
    requires InTeardown(p.pc) && p.mode == Deleting && !p.pc.Look? && !p.pc.Write?
    requires p.pc.ResolveNamespace? || p.pc.CountRGDs? || p.pc.DeleteObject? || p.pc.ConfirmGone?
      || p.pc.RevokeAccess? || p.pc.RemoveFinalizer? || p.pc.PatchStatus? || p.pc.Done?
    ensures var q := Passes.Step(p, a);
      InTeardown(q.pc) && q.mode == Deleting && !q.pc.Look? && !q.pc.Write? && q.config == p.config
  {
    hide AfterCheckRequest, AfterReconcileAccess, AfterGetCluster, AfterGetRequest, AfterResolveNamespace,
      AfterCountRGDs, AfterDeleteObject, AfterConfirmGone, AfterRevokeAccess,
      AfterRemoveFinalizer, AfterPatchStatus, Statuses.Agrees, AllReady, Poll;
    match p.pc
    case ResolveNamespace =>
    case CountRGDs =>
    case DeleteObject(_, _) =>
    case ConfirmGone(_, _) =>
    case RevokeAccess =>
    case RemoveFinalizer =>
    case PatchStatus(_) =>
    case Done(_) =>
  }

  lemma StaysTearing(p: Pass, a: Answer)
    requires InTeardown(p.pc) && p.mode == Deleting && !p.pc.Look? && !p.pc.Write?
    ensures var q := Passes.Step(p, a);
      InTeardown(q.pc) && q.mode == Deleting && !q.pc.Look? && !q.pc.Write? && q.config == p.config
  {
    hide Passes.Step;
    if p.pc.CheckRequest? || p.pc.ReconcileAccess? || p.pc.GetCluster? || p.pc.GetRequest? {
      AccessStaysTearing(p, a);
    } else {
      RemovalStaysTearing(p, a);
    }
  }
}
