/**
 Deleting a Kro: teardown only moves forward, whatever happens. Once no pass in flight believes otherwise,
 and at the latest when access is being revoked, nothing that was installed comes back.
 */
module Teardown {
  import opened Wrappers
  import opened Resources
  import opened Flux
  import opened Passes
  import opened Worlds
  import opened Operator
  import opened Safety

  /** `k` is being deleted and no pass in flight still believes otherwise. */
  ghost predicate TearingDown(s: System, k: Key) {
    && k in s.world.kros && s.world.kros[k].deleting
    && (k in s.passes ==>
          s.passes[k].mode != Creating && (s.passes[k].pc.LoadConfig? ==> s.passes[k].obj.deleting))
  }

  // ---------- only forward ----------

  ghost predicate FluxForward(w: World, v: World, ref: FluxRef) {
    ref in v.flux ==> ref in w.flux && (w.flux[ref].deleting ==> v.flux[ref].deleting)
  }

  ghost predicate RequestForward(w: World, v: World, r: RequestRef) {
    r in v.requests ==> r in w.requests && (w.requests[r].deleting ==> v.requests[r].deleting)
  }

  /** From `w` to `v` nothing of `k` came back: no object, no access, no finalizer, no deletion undone. */
  ghost predicate Forward(w: World, v: World, k: Key) {
    && FluxForward(w, v, RefOf(Oci, Tenant(k)))
    && FluxForward(w, v, RefOf(Main, Tenant(k)))
    && FluxForward(w, v, RefOf(Crds, Tenant(k)))
    && RequestForward(w, v, RequestRef(k, MCP))
    && RequestForward(w, v, RequestRef(k, Workload))
    && (HasFinalizer(v, k) ==> HasFinalizer(w, k) && (w.kros[k].deleting ==> v.kros[k].deleting))
  }

  lemma PuttingGoesForward(w: World, j: Key, kro: Kro, k: Key)
    requires j == k && kro.finalizer ==> HasFinalizer(w, k) && (w.kros[k].deleting ==> kro.deleting)
    ensures Forward(w, PutKro(w, j, kro), k)
  {
  }

  lemma DeletingGoesForward(w: World, ref: FluxRef, k: Key)
    ensures Forward(w, RequestDeletion(w, ref), k)
  {
  }

  lemma EnvironmentGoesForward(w: World, e: Env, k: Key)
    requires Permitted(w, e)
    ensures Forward(w, Act(w, e), k)
  {
    hide PutKro, RequestDeletion, Forward;
    match e
    case UserCreates(j, version, op, foreign) =>
      PuttingGoesForward(w, j, Kro(version, op, 1, w.clock + 1, false, false, foreign, EMPTY_STATUS), k);
    case UserEdits(j, version) =>
      PuttingGoesForward(w, j, Bumped(w, w.kros[j].(version := version, generation := w.kros[j].generation + 1)), k);
    case UserAnnotates(j, op) => PuttingGoesForward(w, j, Bumped(w, w.kros[j].(op := op)), k);
    case UserDeletes(j) =>
      PuttingGoesForward(w, j, Bumped(w, w.kros[j].(deleting := true, generation := w.kros[j].generation + 1)), k);
    case ForeignReleases(j) => PuttingGoesForward(w, j, Bumped(w, w.kros[j].(foreign := false)), k);
    case SomeoneDeletes(ref) => DeletingGoesForward(w, ref, k);
    case FluxReports(ref, cs) => UpdatingGoesForward(w, ref, w.flux[ref].(conditions := cs, rv := w.clock + 1), k);
    case FluxHolds(ref) => UpdatingGoesForward(w, ref, w.flux[ref].(held := true, rv := w.clock + 1), k);
    case FluxReleases(ref) => UpdatingGoesForward(w, ref, w.flux[ref].(held := false, rv := w.clock + 1), k);
    case SomeoneForges(ref, spec) => UpdatingGoesForward(w, ref, Respecified(w.flux[ref], spec, w.clock + 1), k);
    case ProviderGrants(r, name) =>
      RequestsGoForward(w, r, w.requests[r].(granted := true, secretRef := Some(name)), k);
    case ProviderReleases(r) => RequestsGoForward(w, r, w.requests[r], k);
    case _ => SecretsStandStill(w, e, k);
  }

  lemma UpdatingGoesForward(w: World, ref: FluxRef, o: FluxObject, k: Key)
    requires ref in w.flux && (w.flux[ref].deleting ==> o.deleting)
    ensures Forward(w, Tick(w.(flux := w.flux[ref := o])), k)
    ensures Forward(w, Tick(w.(flux := w.flux - {ref})), k)
  {
  }

  lemma RequestsGoForward(w: World, r: RequestRef, ar: AccessRequest, k: Key)
    requires r in w.requests && (w.requests[r].deleting ==> ar.deleting)
    ensures Forward(w, w.(requests := w.requests[r := ar]), k)
    ensures Forward(w, w.(requests := w.requests - {r}), k)
  {
  }

  lemma SecretsStandStill(w: World, e: Env, k: Key)
    requires Permitted(w, e) && (e.SomeoneStores? || e.SomeoneDrops? || e.UserSetsRGDs?)
    ensures Forward(w, Act(w, e), k)
  {
  }

  lemma OthersGoForward(w: World, v: World, k: Key)
    requires SameTenant(w, v, k)
    ensures Forward(w, v, k)
  {
    assert forall which :: RefOf(which, Tenant(k)) in w.flux <==> RefOf(which, Tenant(k)) in v.flux;
    assert forall c :: RequestRef(k, c) in w.requests <==> RequestRef(k, c) in v.requests;
    assert KroAt(w, k) == KroAt(v, k);
  }

  lemma AccessGoesForward(w: World, p: Pass, h: Hidden)
    requires p.pc.ReconcileAccess? || p.pc.RevokeAccess?
    requires p.pc.ReconcileAccess? ==> AllLive(w, p.key, p.needsWorkload) && h.first <= Required(p.needsWorkload)
    ensures p.pc.ReconcileAccess? ==> Forward(w, MakeRequests(w, p.key, h.first), p.key)
    ensures p.pc.RevokeAccess? ==> Forward(w, RevokeRequests(w, p.key, h), p.key)
  {
  }

  lemma OwnCallGoesForward(w: World, p: Pass, cache: Option<ProviderConfig>, epoch: nat, a: Answer, h: Hidden)
    requires PassSafe(w, p) && p.mode != Creating
    requires Lawful(w, p, cache, epoch, a, h)
    ensures Forward(w, Effect(w, p, a, h), p.key)
  {
    hide PutKro, MakeRequests, RevokeRequests, EffectOfWrite, RequestDeletion, Forward;
    hide Written, LawfulRevoke, GoneBefore, NoFlux, NoRequests;
    var k := p.key;
    StandingStill(w, k);
    match p.pc
    case PatchAnnotation => if a.GotKro? { PuttingGoesForward(w, k, a.kro, k); }
    case ReconcileAccess => AccessGoesForward(w, p, h);
    case Look(_, _) =>
    case DeleteObject(_, ref) => DeletingGoesForward(w, ref, k);
    case RevokeAccess => AccessGoesForward(w, p, h);
    case RemoveFinalizer => if a.GotKro? { PuttingGoesForward(w, k, a.kro, k); }
    case PatchStatus(_) =>
      if k in w.kros { PuttingGoesForward(w, k, Bumped(w, w.kros[k].(status := p.obj.status)), k); }
    case _ =>
  }

  lemma StandingStill(w: World, k: Key)
    ensures Forward(w, w, k)
  {
  }

  lemma StepGoesForward(s: System, a: Action, k: Key)
    requires Safe(s) && TearingDown(s, k) && s.config.history != [] && Enabled(s, a)
    ensures Forward(s.world, Apply(s, a).world, k)
    ensures k in Apply(s, a).world.kros ==> TearingDown(Apply(s, a), k)
  {
    hide SafeAt, Forward, Effect, Act, Calls, Lawful, Permitted, Observe, Settle;
    assert SafeAt(s, k);
    match a
    case Environment(e) =>
      EnvironmentGoesForward(s.world, e, k);
      EnvironmentKeepsDeletion(s.world, e, k);
    case PassCalls(j, answer, h) =>
      assert SafeAt(s, j);
      CallGoesForward(s, j, answer, h, k);
    case _ => StandingStill(s.world, k);
  }

  lemma PuttingKeepsDeletion(w: World, j: Key, kro: Kro, k: Key)
    requires k in w.kros && w.kros[k].deleting && (j == k ==> kro.deleting)
    ensures k in PutKro(w, j, kro).kros ==> PutKro(w, j, kro).kros[k].deleting
  {
  }

  lemma EnvironmentKeepsDeletion(w: World, e: Env, k: Key)
    requires Permitted(w, e) && k in w.kros && w.kros[k].deleting
    ensures k in Act(w, e).kros ==> Act(w, e).kros[k].deleting
  {
    hide PutKro, RequestDeletion;
    match e
    case UserCreates(j, version, op, foreign) =>
      PuttingKeepsDeletion(w, j, Kro(version, op, 1, w.clock + 1, false, false, foreign, EMPTY_STATUS), k);
    case UserEdits(j, version) =>
      PuttingKeepsDeletion(w, j, Bumped(w, w.kros[j].(version := version, generation := w.kros[j].generation + 1)), k);
    case UserAnnotates(j, op) => PuttingKeepsDeletion(w, j, Bumped(w, w.kros[j].(op := op)), k);
    case UserDeletes(j) =>
      PuttingKeepsDeletion(w, j, Bumped(w, w.kros[j].(deleting := true, generation := w.kros[j].generation + 1)), k);
    case ForeignReleases(j) => PuttingKeepsDeletion(w, j, Bumped(w, w.kros[j].(foreign := false)), k);
    case _ =>
  }

  lemma CallGoesForward(s: System, j: Key, a: Answer, h: Hidden, k: Key)
    requires j in s.passes && SafeAt(s, j) && SafeAt(s, k) && TearingDown(s, k)
    requires Lawful(s.world, s.passes[j], s.config.stored.config, s.config.epoch, a, h)
    ensures Forward(s.world, Calls(s, j, a, h).world, k)
    ensures k in Calls(s, j, a, h).world.kros ==> TearingDown(Calls(s, j, a, h), k)
  {
    hide MovesOn, Stays, Accesses;
    hide Forward, Effect, Passes.Step, Lawful, StoreSafe, PassSafe;
    var w, p := s.world, s.passes[j];
    if j == k {
      OwnCallGoesForward(w, p, s.config.stored.config, s.config.epoch, a, h);
      CallKeepsTeardown(w, p, s.config.stored.config, s.config.epoch, a, h);
    } else {
      PassesAreIsolated(w, p, a, h, k);
      OthersGoForward(w, Effect(w, p, a, h), k);
    }
  }

  lemma EffectKeepsDeletion(w: World, p: Pass, cache: Option<ProviderConfig>, epoch: nat, a: Answer, h: Hidden)
    requires p.key in w.kros && w.kros[p.key].deleting
    requires Lawful(w, p, cache, epoch, a, h)
    ensures var v := Effect(w, p, a, h); p.key in v.kros ==> v.kros[p.key].deleting
    ensures (p.pc.GetKro? || p.pc.PatchAnnotation?) && a.GotKro? ==> a.kro.deleting
  {
    hide Effect, PutKro, LawfulReconcileAccess, LawfulLook, LawfulWrite, LawfulCount, LawfulDelete, LawfulRevoke,
      LawfulPatchStatus, ReadsRequest, ReadsFlux;
    var k := p.key;
    if StoresAnswer(p.pc) && a.GotKro? {
      PuttingKeepsDeletion(w, k, a.kro, k);
    } else if p.pc.PatchStatus? {
      PuttingKeepsDeletion(w, k, Bumped(w, w.kros[k].(status := p.obj.status)), k);
    }
  }

  lemma StepStaysDeleting(p: Pass, a: Answer)
    requires p.mode != Creating && (p.pc.LoadConfig? ==> p.obj.deleting)
    requires (p.pc.GetKro? || p.pc.PatchAnnotation?) && a.GotKro? ==> a.kro.deleting
    ensures var q := Passes.Step(p, a); q.mode != Creating && (q.pc.LoadConfig? ==> q.obj.deleting)
  {
    if p.pc.LoadConfig? {
      hide AfterLoadConfig;
    } else {
      hide Passes.Step;
    }
  }

  lemma CallKeepsTeardown(w: World, p: Pass, cache: Option<ProviderConfig>, epoch: nat, a: Answer, h: Hidden)
    requires p.key in w.kros && w.kros[p.key].deleting
    requires p.mode != Creating && (p.pc.LoadConfig? ==> p.obj.deleting)
    requires Lawful(w, p, cache, epoch, a, h)
    ensures var v, q := Effect(w, p, a, h), Passes.Step(p, a);
      && (p.key in v.kros ==> v.kros[p.key].deleting)
      && q.mode != Creating && (q.pc.LoadConfig? ==> q.obj.deleting)
  {
    hide Passes.Step, Lawful, Effect;
    EffectKeepsDeletion(w, p, cache, epoch, a, h);
    StepStaysDeleting(p, a);
  }

  lemma ForwardComposes(u: World, v: World, w: World, k: Key)
    requires Forward(u, v, k) && Forward(v, w, k)
    ensures Forward(u, w, k)
  {
  }

  /** The Kro exists from `i` to `j`. */
  ghost predicate Kept(r: Run, k: Key, i: nat, j: nat) {
    forall n :: i <= n <= j && n < |r.states| ==> k in r.states[n].world.kros
  }

  /**
   Teardown is irreversible: from the first state in which a Kro is being deleted and no pass believes
   otherwise, as long as it exists, no Flux object or access request of its comes back, no requested
   deletion is taken back, and a finalizer that is off stays off. In particular access is never renewed.
   */
  lemma {:induction false} NothingComesBack(r: Run, k: Key, i: nat, j: nat)
    requires ValidRun(r) && i <= j < |r.states|
    requires TearingDown(r.states[i], k) && Kept(r, k, i, j)
    ensures TearingDown(r.states[j], k)
    ensures Forward(r.states[i].world, r.states[j].world, k)
    decreases j
  {
    hide TearingDown, Apply, Enabled, Initial, Forward;
    if i == j {
      StandingStill(r.states[i].world, k);
    } else {
      NothingComesBack(r, k, i, j - 1);
      RunStatesAreReachable(r, j - 1);
      ReachableIsSafe(r.states[j - 1]);
      StepGoesForward(r.states[j - 1], r.actions[j - 1], k);
      ForwardComposes(r.states[i].world, r.states[j - 1].world, r.states[j].world, k);
    }
  }

  // ---------- the point of no return ----------

  /** A pass that installs has all the access requests there are for itself. */
  ghost predicate Undisputed(s: System, k: Key) {
    k in s.passes && s.passes[k].mode == Creating ==> NotRevoking(s.world, k)
  }

  lemma CreatingIsUndisputed(w: World, p: Pass, cache: Option<ProviderConfig>, epoch: nat, a: Answer, h: Hidden)
    requires PassSafe(w, p) && Lawful(w, p, cache, epoch, a, h)
    requires p.mode == Creating ==> NotRevoking(w, p.key)
    ensures Passes.Step(p, a).mode == Creating ==> NotRevoking(Effect(w, p, a, h), p.key)
  {
    hide Lawful, Effect, NotRevoking, MakeRequests, WithAccess, OwnPlan, GoneBefore;
    AskingIsUndisputed(w, p.key, h);
    SameRequestsAreUndisputed(w, Effect(w, p, a, h), p.key);
    if p.pc.LoadConfig? {
      hide AfterLoadConfig;
    } else {
      hide Passes.Step;
    }
  }

  lemma AskingIsUndisputed(w: World, k: Key, h: Hidden)
    ensures NotRevoking(w, k) ==> NotRevoking(MakeRequests(w, k, h.first), k)
  {
  }

  lemma SameRequestsAreUndisputed(w: World, v: World, k: Key)
    ensures NotRevoking(w, k) && v.requests == w.requests ==> NotRevoking(v, k)
  {
  }

  lemma BenignIsUndisputed(s: System, v: World, k: Key)
    requires Undisputed(s, k) && Benign(s.world, v, k)
    ensures Undisputed(s.(world := v), k)
  {
  }

  lemma StepIsUndisputed(s: System, a: Action, k: Key)
    requires Safe(s) && Undisputed(s, k) && s.config.history != [] && Enabled(s, a)
    ensures Undisputed(Apply(s, a), k)
  {
    hide StoreSafe, PassSafe, Benign, SameTenant, NotRevoking, Effect, Act, Passes.Step, Lawful, Permitted, Observe,
      Settle, Watch;
    assert SafeAt(s, k);
    match a
    case Environment(e) =>
      EnvironmentIsBenign(s.world, e, k);
      BenignIsUndisputed(s, Act(s.world, e), k);
    case PassCalls(j, answer, h) =>
      assert SafeAt(s, j);
      if j == k {
        CreatingIsUndisputed(s.world, s.passes[k], s.config.stored.config, s.config.epoch, answer, h);
      } else {
        PassesAreIsolated(s.world, s.passes[j], answer, h, k);
        IsolationIsBenign(s.world, Effect(s.world, s.passes[j], answer, h), k);
        BenignIsUndisputed(s, Effect(s.world, s.passes[j], answer, h), k);
      }
    case _ =>
  }

  lemma InitialIsUndisputed(s: System, k: Key)
    requires Initial(s)
    ensures Undisputed(s, k)
  {
  }

  lemma ReachableIsUndisputed(s: System, k: Key)
    requires Reachable(s)
    ensures Safe(s) && Undisputed(s, k)
  {
    hide Apply, Enabled, Initial, Reachable, Undisputed, SafeAt;
    forall s | Initial(s) ensures Safe(s) && Undisputed(s, k) {
      InitialIsSafe(s);
      InitialIsUndisputed(s, k);
    }
    forall s, a, t | Safe(s) && Undisputed(s, k) && Joined(s, a, t) ensures Safe(t) && Undisputed(t, k) {
      forall j ensures SafeAt(t, j) { StepIsSafe(s, a, j); }
      StepIsUndisputed(s, a, k);
    }
    HoldsWhereReachable(s => Safe(s) && Undisputed(s, k), s);
  }

  /**
   The point of no return: in every reachable state in which an access request of a Kro is being revoked,
   the Kro is being torn down, so that `NothingComesBack` applies from there on.
   */
  lemma RevokedIsTearingDown(s: System, k: Key, c: ClusterKind)
    requires Reachable(s) && FadingRequest(s.world, RequestRef(k, c))
    ensures TearingDown(s, k)
  {
    hide Reachable, Doomed, NoFlux;
    ReachableIsUndisputed(s, k);
    assert SafeAt(s, k);
    match c case MCP => case Workload =>
  }
}
