/**
 Teardown terminates. A measure counts what is left of a Kro's installation; no step of anybody ever
 increases it once the Kro is being deleted, and every round decreases it: one pass that ends without
 error, after which the deletions it asked for are completed.
 */
module Rounds {
  import opened Wrappers
  import opened Resources
  import opened Flux
  import opened Passes
  import opened Worlds
  import opened Operator
  import opened Safety
  import opened Teardown

  ghost function FluxLeft(w: World, ref: FluxRef): nat {
    if ref !in w.flux then 0 else if w.flux[ref].deleting then 1 else 2
  }

  ghost function RequestLeft(w: World, r: RequestRef): nat {
    if r !in w.requests then 0 else if w.requests[r].deleting then 1 else 2
  }

  /** What is left: two for an object or access request, one once its deletion was asked for, one for the finalizer. */
  ghost function Weight(w: World, k: Key): (n: nat)
    ensures n <= 11
  {
    FluxLeft(w, RefOf(Oci, Tenant(k))) + FluxLeft(w, RefOf(Main, Tenant(k))) + FluxLeft(w, RefOf(Crds, Tenant(k)))
      + RequestLeft(w, RequestRef(k, MCP)) + RequestLeft(w, RequestRef(k, Workload))
      + if HasFinalizer(w, k) then 1 else 0
  }

  /** A deletion was asked for and somebody else has yet to complete it. */
  ghost predicate Outstanding(w: World, k: Key) {
    || Fading(w, RefOf(Oci, Tenant(k))) || Fading(w, RefOf(Main, Tenant(k))) || Fading(w, RefOf(Crds, Tenant(k)))
    || FadingRequest(w, RequestRef(k, MCP)) || FadingRequest(w, RequestRef(k, Workload))
  }

  /** Since the measure was `m`, something has moved or is moving. */
  ghost predicate Moving(w: World, k: Key, m: nat) { Weight(w, k) < m || (Weight(w, k) == m && Outstanding(w, k)) }

  ghost predicate Asked(w: World, ref: FluxRef) { ref in w.flux ==> w.flux[ref].deleting }

  lemma ForwardIsLighter(w: World, v: World, k: Key)
    requires Forward(w, v, k)
    ensures Weight(v, k) <= Weight(w, k)
    ensures Outstanding(w, k) && Weight(v, k) == Weight(w, k) ==> Outstanding(v, k)
  {
  }

  lemma ForwardKeepsMoving(w: World, v: World, k: Key, m: nat)
    requires Forward(w, v, k) && Moving(w, k, m)
    ensures Moving(v, k, m)
  {
    hide Forward, Weight, Outstanding;
    ForwardIsLighter(w, v, k);
  }

  lemma ForwardKeepsAsked(w: World, v: World, k: Key, which: Which)
    requires Forward(w, v, k) && Asked(w, RefOf(which, Tenant(k)))
    ensures Asked(v, RefOf(which, Tenant(k)))
  {
    match which case Oci => case Main => case Crds =>
  }

  // ---------- one pass ----------

  /** A teardown pass in a round that began with measure `m`. */
  ghost predicate OnTheWay(w: World, p: Pass, m: nat) {
    && (p.pc.ConfirmGone? ==> Asked(w, p.pc.ref))
    && (p.lingering && (p.pc.DeleteObject? || p.pc.ConfirmGone?) ==> Moving(w, p.key, m))
    && (Succeeds(p) ==> Moving(w, p.key, m))
  }

  /**
   The answers a round needs beside the pass ending without error: no ignore annotation, no
   ResourceGraphDefinition left, no failed Get in the loop of Delete (which would be retried later
   rather than reported), and no waiting for access that is gone already.
   */
  ghost predicate Good(w: World, p: Pass, a: Answer, h: Hidden) {
    match p.pc
    case GetKro => a.GotKro? ==> a.kro.op != Ignore
    case CountRGDs => a.Counted? ==> a.n == 0
    case ConfirmGone(_, _) => !a.Failed?
    case RevokeAccess => NoRequests(RevokeRequests(w, p.key, h), p.key) && a.Delay? ==> a.seconds == 0
    case _ => true
  }

  ghost predicate TeardownPass(p: Pass) { p.mode != Creating && (p.pc.LoadConfig? ==> p.obj.deleting) }

  lemma DeletingMoves(w: World, p: Pass, a: Answer, m: nat)
    requires p.pc.DeleteObject? && OnTheWay(w, p, m) && (a.Failed? || LawfulDelete(w, p.pc.ref, a))
    requires Forward(w, EffectOfDelete(w, p.pc.ref, a), p.key)
    ensures OnTheWay(EffectOfDelete(w, p.pc.ref, a), AfterDeleteObject(p, p.pc.i, p.pc.ref, a), m)
  {
    hide Forward, Moving, FailTerminating;
    var v := EffectOfDelete(w, p.pc.ref, a);
    if p.lingering { ForwardKeepsMoving(w, v, p.key, m); }
  }

  lemma ConfirmingMoves(w: World, p: Pass, a: Answer, m: nat)
    requires p.pc.ConfirmGone? && OnTheWay(w, p, m) && ReadsFlux(w, p.pc.ref, a)
    requires GoneBefore(w, p, p.pc.i, p.pc.ref) && Weight(w, p.key) <= m
    ensures OnTheWay(w, AfterConfirmGone(p, p.pc.i, a), m)
  {
    hide AfterConfirmGone, Weight, GoneBefore, Gone;
    TargetsAreRefs(p.key);
    if a.GotFlux? { LingeringIsOutstanding(w, p); }
  }

  lemma LingeringIsOutstanding(w: World, p: Pass)
    requires p.pc.ConfirmGone? && GoneBefore(w, p, p.pc.i, p.pc.ref)
    requires p.pc.ref in w.flux && w.flux[p.pc.ref].deleting
    ensures Outstanding(w, p.key)
  {
    TargetsAreRefs(p.key);
  }

  lemma RevokingMoves(w: World, p: Pass, a: Answer, h: Hidden, m: nat)
    requires p.pc.RevokeAccess? && LawfulRevoke(w, p.key, a, h) && Good(w, p, a, h)
    requires Weight(RevokeRequests(w, p.key, h), p.key) <= m
    ensures OnTheWay(RevokeRequests(w, p.key, h), AfterRevokeAccess(p, a), m)
  {
    hide AfterRevokeAccess, RevokeRequests, Weight;
  }

  /** Until something is deleted, a pass without errors goes on. */
  ghost predicate GoesOn(q: Pass) {
    !q.pc.ConfirmGone? && (q.pc.DeleteObject? ==> !q.lingering) && !Succeeds(q)
  }

  lemma FirstCallsGoOn(w: World, p: Pass, a: Answer, h: Hidden)
    requires p.pc.GetKro? || p.pc.PatchAnnotation? || p.pc.LoadConfig? || p.pc.GetForFinalizer? || p.pc.RecreateKro?
      || p.pc.UpdateFinalizer? || p.pc.CheckRequest?
    requires p.pc.GetKro? ==> a.Failed? || ReadsKro(w, p.key, a)
    requires Good(w, p, a, h) && p.key in w.kros
    ensures GoesOn(Passes.Step(p, a))
  {
    hide AfterGetKro, AfterPatchAnnotation, AfterLoadConfig, AfterGetForFinalizer, AfterUpdateFinalizer,
      AfterCheckRequest, AfterReconcileAccess, AfterGetCluster, AfterGetRequest, AfterResolveNamespace,
      AfterLook, AfterWrite, AfterCountRGDs, AfterDeleteObject, AfterConfirmGone, AfterRevokeAccess,
      AfterRemoveFinalizer, AfterPatchStatus, FailProgressing;
    match p.pc
    case GetKro =>
    case PatchAnnotation =>
    case LoadConfig =>
    case GetForFinalizer =>
    case RecreateKro =>
    case UpdateFinalizer =>
    case CheckRequest(_) =>
  }

  lemma AccessCallsGoOn(w: World, p: Pass, a: Answer, h: Hidden)
    requires p.pc.ReconcileAccess? || p.pc.GetCluster? || p.pc.GetRequest? || p.pc.ResolveNamespace? || p.pc.CountRGDs?
    requires p.mode != Creating && Good(w, p, a, h)
    ensures GoesOn(Passes.Step(p, a))
  {
    hide AfterGetKro, AfterPatchAnnotation, AfterLoadConfig, AfterGetForFinalizer, AfterUpdateFinalizer,
      AfterCheckRequest, AfterReconcileAccess, AfterGetCluster, AfterGetRequest, AfterResolveNamespace,
      AfterLook, AfterWrite, AfterCountRGDs, AfterDeleteObject, AfterConfirmGone, AfterRevokeAccess,
      AfterRemoveFinalizer, AfterPatchStatus, FailProgressing;
    match p.pc
    case ReconcileAccess =>
    case GetCluster(_) =>
    case GetRequest(_) =>
    case ResolveNamespace =>
    case CountRGDs =>
  }

  lemma RemovalCallsMove(w: World, p: Pass, cache: Option<ProviderConfig>, epoch: nat, a: Answer, h: Hidden, m: nat)
    requires p.pc.DeleteObject? || p.pc.ConfirmGone?
    requires PassSafe(w, p) && OnTheWay(w, p, m) && Weight(w, p.key) <= m
    requires Lawful(w, p, cache, epoch, a, h) && Good(w, p, a, h)
    requires Forward(w, Effect(w, p, a, h), p.key) && HasFinalizer(Effect(w, p, a, h), p.key)
    ensures OnTheWay(Effect(w, p, a, h), Passes.Step(p, a), m)
  {
    hide Moving, Forward, Weight, NoFlux, NoRequests, Outstanding, WithAccess, Dismantling, GoneBefore;
    hide AfterDeleteObject, AfterConfirmGone, EffectOfDelete, LawfulDelete, ReadsFlux;
    match p.pc
    case DeleteObject(_, _) => DeletingMoves(w, p, a, m);
    case ConfirmGone(_, _) => ConfirmingMoves(w, p, a, m);
  }

  lemma FinalCallsMove(w: World, p: Pass, cache: Option<ProviderConfig>, epoch: nat, a: Answer, h: Hidden, m: nat)
    requires p.pc.RevokeAccess? || p.pc.RemoveFinalizer?
    requires PassSafe(w, p) && OnTheWay(w, p, m) && Weight(w, p.key) <= m
    requires Lawful(w, p, cache, epoch, a, h) && Good(w, p, a, h)
    requires Forward(w, Effect(w, p, a, h), p.key) && HasFinalizer(Effect(w, p, a, h), p.key)
    ensures OnTheWay(Effect(w, p, a, h), Passes.Step(p, a), m)
  {
    hide Moving, Forward, Weight, NoFlux, NoRequests, Outstanding, Dismantling;
    hide AfterRevokeAccess, AfterRemoveFinalizer, RevokeRequests, PutKro, LawfulRevoke;
    ForwardIsLighter(w, Effect(w, p, a, h), p.key);
    match p.pc
    case RevokeAccess => RevokingMoves(w, p, a, h, m);
    case RemoveFinalizer => if a.GotKro? { RemovingEndsIt(w, p, a); }
  }

  /** Writing the status back says nothing new. */
  lemma ClosingMoves(w: World, p: Pass, a: Answer, h: Hidden, m: nat)
    requires p.pc.PatchStatus? && OnTheWay(w, p, m) && Forward(w, Effect(w, p, a, h), p.key)
    ensures OnTheWay(Effect(w, p, a, h), Passes.Step(p, a), m)
  {
    hide Moving, Forward, Effect, Passes.Step;
    if Succeeds(p) { ForwardKeepsMoving(w, Effect(w, p, a, h), p.key, m); }
  }

  lemma LastCallsMove(w: World, p: Pass, cache: Option<ProviderConfig>, epoch: nat, a: Answer, h: Hidden, m: nat)
    requires p.pc.DeleteObject? || p.pc.ConfirmGone? || p.pc.RevokeAccess? || p.pc.RemoveFinalizer? || p.pc.PatchStatus?
    requires PassSafe(w, p) && OnTheWay(w, p, m) && Weight(w, p.key) <= m
    requires Lawful(w, p, cache, epoch, a, h) && Good(w, p, a, h)
    requires Forward(w, Effect(w, p, a, h), p.key) && HasFinalizer(Effect(w, p, a, h), p.key)
    ensures OnTheWay(Effect(w, p, a, h), Passes.Step(p, a), m)
  {
    hide Passes.Step;
    if p.pc.DeleteObject? || p.pc.ConfirmGone? {
      RemovalCallsMove(w, p, cache, epoch, a, h, m);
    } else if p.pc.PatchStatus? {
      ClosingMoves(w, p, a, h, m);
    } else {
      FinalCallsMove(w, p, cache, epoch, a, h, m);
    }
  }

  lemma CallMoves(w: World, p: Pass, cache: Option<ProviderConfig>, epoch: nat, a: Answer, h: Hidden, m: nat)
    requires PassSafe(w, p) && TeardownPass(p) && OnTheWay(w, p, m) && Weight(w, p.key) <= m
    requires Lawful(w, p, cache, epoch, a, h) && Good(w, p, a, h)
    requires HasFinalizer(w, p.key) && HasFinalizer(Effect(w, p, a, h), p.key)
    ensures Forward(w, Effect(w, p, a, h), p.key)
    ensures OnTheWay(Effect(w, p, a, h), Passes.Step(p, a), m)
  {
    hide Forward, Weight, Moving, Good, Effect, Passes.Step, WithAccess, Dismantling, Installing, GoneBefore, NoFlux,
      NoRequests, Doomed, NotRevoking, OwnPlan, LawfulRevoke, LawfulReconcileAccess, LawfulLook, LawfulWrite;
    OwnCallGoesForward(w, p, cache, epoch, a, h);
    match p.pc
    case DeleteObject(_, _) => LastCallsMove(w, p, cache, epoch, a, h, m);
    case ConfirmGone(_, _) => LastCallsMove(w, p, cache, epoch, a, h, m);
    case RevokeAccess => LastCallsMove(w, p, cache, epoch, a, h, m);
    case RemoveFinalizer => LastCallsMove(w, p, cache, epoch, a, h, m);
    case PatchStatus(_) => LastCallsMove(w, p, cache, epoch, a, h, m);
    case ReconcileAccess => AccessCallsGoOn(w, p, a, h);
    case GetCluster(_) => AccessCallsGoOn(w, p, a, h);
    case GetRequest(_) => AccessCallsGoOn(w, p, a, h);
    case ResolveNamespace => AccessCallsGoOn(w, p, a, h);
    case CountRGDs => AccessCallsGoOn(w, p, a, h);
    case Look(_, _) =>
    case Write(_, _, _) =>
    case Done(_) =>
    case _ => FirstCallsGoOn(w, p, a, h);
  }

  lemma RemovingEndsIt(w: World, p: Pass, a: Answer)
    requires LawfulRemoveFinalizer(w, p, a) && a.GotKro?
    ensures !HasFinalizer(StoreAnswer(w, p.key, a), p.key)
  {
  }

  // ---------- one round of a run ----------

  ghost predicate Running(s: System, k: Key, m: nat) {
    && TearingDown(s, k) && HasFinalizer(s.world, k) && Weight(s.world, k) <= m
    && k in s.passes && s.passes[k].key == k && OnTheWay(s.world, s.passes[k], m)
  }

  /** The operator neither restarts nor ends the pass here, and the pass's own call gets a good answer. */
  ghost predicate Undisturbed(s: System, a: Action, k: Key) {
    && a != Restart && a != PassEnds(k)
    && (a.PassCalls? && a.k == k && k in s.passes ==> Good(s.world, s.passes[k], a.a, a.h))
  }

  lemma ForwardKeepsOnTheWay(w: World, v: World, p: Pass, m: nat)
    requires Forward(w, v, p.key) && PassSafe(w, p) && OnTheWay(w, p, m)
    ensures OnTheWay(v, p, m)
  {
    hide Moving, Forward, WithAccess, Dismantling, Installing, NoFlux, NoRequests, Doomed, NotRevoking, OwnPlan;
    if Moving(w, p.key, m) { ForwardKeepsMoving(w, v, p.key, m); }
    if p.pc.ConfirmGone? {
      TargetsAreRefs(p.key);
      ForwardKeepsAsked(w, v, p.key, if p.pc.i == 0 then Oci else if p.pc.i == 1 then Main else Crds);
    }
  }

  lemma StepKeepsRunning(s: System, a: Action, k: Key, m: nat)
    requires Safe(s) && Running(s, k, m) && s.config.history != [] && Enabled(s, a) && Undisturbed(s, a, k)
    requires HasFinalizer(Apply(s, a).world, k)
    ensures Running(Apply(s, a), k, m)
  {
    hide Forward, Weight, OnTheWay, Good, PassSafe, StoreSafe, Effect, Act, Lawful, Permitted, Observe, Settle,
      Passes.Step;
    StepGoesForward(s, a, k);
    ForwardIsLighter(s.world, Apply(s, a).world, k);
    assert SafeAt(s, k);
    if a.PassCalls? && a.k == k {
      CallMoves(s.world, s.passes[k], s.config.stored.config, s.config.epoch, a.a, a.h, m);
    } else {
      ForwardKeepsOnTheWay(s.world, Apply(s, a).world, s.passes[k], m);
    }
  }

  /** A pass that starts at `start` and ends at `end`, and a later state in which its deletions are completed. */
  datatype Span = Span(start: nat, end: nat, settled: nat)

  ghost predicate Round(r: Run, k: Key, n: Span) {
    && n.start < n.end < n.settled < |r.states| && |r.states| == |r.actions| + 1
    && r.actions[n.start] == PassStarts(k) && r.actions[n.end] == PassEnds(k)
    && (forall i :: n.start < i < n.end ==> Undisturbed(r.states[i], r.actions[i], k))
    && k in r.states[n.end].passes && Succeeds(r.states[n.end].passes[k])
    && !Outstanding(r.states[n.settled].world, k)
  }

  /** The finalizer is on from `i` to `j`. */
  ghost predicate Held(r: Run, k: Key, i: nat, j: nat) {
    forall n :: i <= n <= j && n < |r.states| ==> HasFinalizer(r.states[n].world, k)
  }

  lemma HeldIsKept(r: Run, k: Key, i: nat, j: nat)
    requires Held(r, k, i, j)
    ensures Kept(r, k, i, j)
  {
  }

  lemma {:induction false} RunningUntil(r: Run, k: Key, n: Span, i: nat)
    requires ValidRun(r) && Round(r, k, n) && n.start < i <= n.end
    requires TearingDown(r.states[n.start], k) && Held(r, k, n.start, n.settled)
    ensures Running(r.states[i], k, Weight(r.states[n.start].world, k))
  {
    hide Running, TearingDown, Apply, Enabled, Undisturbed, Outstanding, Initial, Weight, HasFinalizer;
    var m := Weight(r.states[n.start].world, k);
    RunStatesAreReachable(r, i - 1);
    if i == n.start + 1 {
      PassStartsRunning(r.states[n.start], k);
    } else {
      RunningUntil(r, k, n, i - 1);
      ReachableIsSafe(r.states[i - 1]);
      StepKeepsRunning(r.states[i - 1], r.actions[i - 1], k, m);
    }
  }

  lemma PassStartsRunning(s: System, k: Key)
    requires s.config.history != [] && TearingDown(s, k) && Enabled(s, PassStarts(k)) && HasFinalizer(s.world, k)
    ensures Running(Apply(s, PassStarts(k)), k, Weight(s.world, k))
  {
  }

  /** Every round of a deletion makes the measure smaller, unless it ends with the finalizer gone. */
  lemma RoundMakesProgress(r: Run, k: Key, n: Span)
    requires ValidRun(r) && Round(r, k, n)
    requires TearingDown(r.states[n.start], k) && Held(r, k, n.start, n.settled)
    ensures Weight(r.states[n.settled].world, k) < Weight(r.states[n.start].world, k)
    ensures TearingDown(r.states[n.settled], k)
  {
    var m := Weight(r.states[n.start].world, k);
    RunningUntil(r, k, n, n.end);
    PassEndsMoving(r.states[n.end], k, m);
    HeldIsKept(r, k, n.start, n.settled);
    NothingComesBack(r, k, n.end, n.settled);
    ForwardKeepsMoving(r.states[n.end].world, r.states[n.settled].world, k, m);
    hide Weight, TearingDown, Outstanding, Forward;
  }

  lemma PassEndsMoving(s: System, k: Key, m: nat)
    requires Running(s, k, m) && Succeeds(s.passes[k])
    ensures Moving(s.world, k, m) && TearingDown(s, k)
  {
  }

  ghost predicate Rounds(r: Run, k: Key, ns: seq<Span>) {
    && (forall i :: 0 <= i < |ns| ==> Round(r, k, ns[i]))
    && (forall i :: 0 < i < |ns| ==> ns[i - 1].settled <= ns[i].start)
  }

  lemma RoundIsOrdered(r: Run, k: Key, n: Span)
    requires Round(r, k, n)
    ensures n.start < n.settled < |r.states|
  {
  }

  lemma HeldMeanwhile(r: Run, k: Key, i: nat, j: nat, m: nat, n: nat)
    requires Held(r, k, i, j) && m <= n <= j
    ensures Held(r, k, i, m)
    ensures i <= m ==> Held(r, k, m, n)
    ensures i <= n ==> Held(r, k, n, j)
  {
  }

  lemma {:induction false} RoundsAddUp(r: Run, k: Key, ns: seq<Span>)
    requires ValidRun(r) && ns != [] && Rounds(r, k, ns)
    requires TearingDown(r.states[ns[0].start], k) && Held(r, k, ns[0].start, ns[|ns| - 1].settled)
    ensures Weight(r.states[ns[|ns| - 1].settled].world, k) + |ns| <= Weight(r.states[ns[0].start].world, k)
    ensures TearingDown(r.states[ns[|ns| - 1].settled], k)
    ensures ns[0].start < ns[|ns| - 1].settled
  {
    hide TearingDown, Weight, Round, ValidRun, Held, Kept, Forward;
    var last := |ns| - 1;
    RoundIsOrdered(r, k, ns[last]);
    if last == 0 {
      RoundMakesProgress(r, k, ns[0]);
    } else {
      var front := ns[..last];
      RoundIsOrdered(r, k, ns[last - 1]);
      HeldMeanwhile(r, k, ns[0].start, ns[last].settled, ns[last - 1].settled, ns[last].start);
      assert Rounds(r, k, front);
      RoundsAddUp(r, k, front);
      HeldIsKept(r, k, ns[last - 1].settled, ns[last].start);
      NothingComesBack(r, k, ns[last - 1].settled, ns[last].start);
      ForwardIsLighter(r.states[ns[last - 1].settled].world, r.states[ns[last].start].world, k);
      RoundMakesProgress(r, k, ns[last]);
    }
  }

  /**
   Teardown terminates: in every run, once a Kro is being deleted, as many rounds as the measure says
   (at most eleven), with anything else happening in between, bring it to a state without this
   operator's finalizer; and then none of its Flux objects and access requests exists.
   */
  lemma TeardownTerminates(r: Run, k: Key, ns: seq<Span>)
    requires ValidRun(r) && ns != [] && Rounds(r, k, ns)
    requires var s := r.states[ns[0].start];
      k in s.world.kros && s.world.kros[k].deleting && Weight(s.world, k) <= |ns|
    ensures exists i ::
      (&& ns[0].start <= i <= ns[|ns| - 1].settled && i < |r.states|
       && !HasFinalizer(r.states[i].world, k) && NoFlux(r.states[i].world, k) && NoRequests(r.states[i].world, k))
  {
    hide Weight, Outstanding, Apply, Initial, HasFinalizer, NoFlux, NoRequests;
    assert Round(r, k, ns[0]);
    StartsTearingDown(r, k, ns[0]);
    if Held(r, k, ns[0].start, ns[|ns| - 1].settled) {
      RoundsAddUp(r, k, ns);
      assert Round(r, k, ns[|ns| - 1]);
      HeldHasWeight(r.states[ns[|ns| - 1].settled].world, k);
    }
    var i :| ns[0].start <= i <= ns[|ns| - 1].settled && i < |r.states| && !HasFinalizer(r.states[i].world, k);
    RunStatesAreReachable(r, i);
    NoOrphans(r.states[i], k);
  }

  lemma HeldHasWeight(w: World, k: Key)
    requires HasFinalizer(w, k)
    ensures Weight(w, k) > 0
  {
  }

  lemma StartsTearingDown(r: Run, k: Key, n: Span)
    requires ValidRun(r) && Round(r, k, n)
    requires var s := r.states[n.start]; k in s.world.kros && s.world.kros[k].deleting
    ensures TearingDown(r.states[n.start], k)
  {
    hide Apply, Initial;
    assert Joined(r.states[n.start], r.actions[n.start], r.states[n.start + 1]);
  }
}
