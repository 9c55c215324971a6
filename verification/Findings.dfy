/**
 Claims a reader might expect and the code does not keep: for each, the exact condition under which it
 holds, or what happens instead. Those about what a pass reports are in Verdicts and Phases; Witness has
 runs that break them.
 */
module Findings {
  import opened Wrappers
  import opened Resources
  import opened Flux
  import opened Passes
  import opened Worlds
  import opened Operator
  import Statuses
  import Versions
  import Coherence
  import Wakeups

  // ---------- "Ready means that the current spec is ready" (see Verdicts) ----------

  /** The same conditions, observed at other generations. */
  ghost predicate SameButGenerations(cs: seq<Condition>, ds: seq<Condition>) {
    |cs| == |ds| && forall i :: 0 <= i < |cs| ==> ds[i] == cs[i].(observedGeneration := ds[i].observedGeneration)
  }

  /** A Flux object counts as ready by its Ready condition alone, whatever generation that was observed at. */
  lemma ReadinessIgnoresGenerations(cs: seq<Condition>, ds: seq<Condition>)
    requires SameButGenerations(cs, ds)
    ensures ResourceStatus(cs) == ResourceStatus(ds)
  {
    var i := Statuses.Find(cs, Statuses.READY);
    assert forall j :: 0 <= j < |cs| ==> cs[j].kind == ds[j].kind;
    if i < |cs| { Statuses.FindIsUnique(ds, Statuses.READY, i); }
  }

  // ---------- "ResourceGraphDefinitions always block deletion" ----------

  /** They do iff the pass has a handle on the control plane. */
  lemma GuardNeedsHandle(p: Pass)
    requires p.pc.ResolveNamespace? && p.mode == Deleting
    ensures var q := Passes.Step(p, Ok);
      && (p.ctx.mcp ==> q.pc.CountRGDs?)
      && (!p.ctx.mcp ==> q.pc == DeleteObject(0, RefOf(Oci, Tenant(p.key))))
  {
  }

  /** And a deletion goes on without one whenever the provider asks to wait, however many definitions exist. */
  lemma WaitingForAccessSkipsGuard(w: World, p: Pass, n: nat)
    requires p.pc.ReconcileAccess? && p.mode == Deleting && p.ctx == NO_CLUSTERS && n > 0
    ensures Lawful(w, p, None, 0, Delay(n), NOTHING)
    ensures var q := Passes.Step(p, Delay(n)); Lawful(w, q, None, 0, Ok, NOTHING)
    ensures Passes.Step(Passes.Step(p, Delay(n)), Ok).pc == DeleteObject(0, RefOf(Oci, Tenant(p.key)))
  {
  }

  // ---------- "Delete is never skipped while access is there" ----------

  /** The pass once the provider has given all it is asked for, with or without a workload cluster, after delay `n`. */
  function WithAccess(p: Pass, n: int, mcp: AccessRequest, present: bool, workload: AccessRequest): Pass {
    var q := Passes.Step(Passes.Step(Passes.Step(p, Delay(n)), GotCluster(true)), GotRequest(mcp));
    if !p.needsWorkload then q
    else
      var r := Passes.Step(q, GotCluster(present));
      if present then Passes.Step(r, GotRequest(workload)) else r
  }

  /** With access to the control plane, Delete is skipped iff the provider's delay was negative. */
  lemma OnlyNegativeDelaySkipsDelete(p: Pass, n: int, mcp: AccessRequest, present: bool, workload: AccessRequest)
    requires p.pc.ReconcileAccess? && p.mode == Deleting && n <= 0
    ensures var q := WithAccess(p, n, mcp, present, workload);
      && (q.pc.RevokeAccess? <==> n < 0)
      && (q.pc.ResolveNamespace? <==> n == 0)
  {
    hide Statuses.MarkTerminating, FailClusters, Statuses.Agrees;
    var q := Passes.Step(Passes.Step(p, Delay(n)), GotCluster(true));
    assert q == p.(delay := n, ctx := p.ctx.(mcp := true), pc := GetRequest(MCP));
    if p.needsWorkload { WithWorkload(Passes.Step(q, GotRequest(mcp)), n, present, workload); }
  }

  lemma WithWorkload(p: Pass, n: int, present: bool, workload: AccessRequest)
    requires p.pc == GetCluster(Workload) && p.mode == Deleting && p.delay == n <= 0
    ensures var r := Passes.Step(p, GotCluster(present));
      var q := if present then Passes.Step(r, GotRequest(workload)) else r;
      && (q.pc.RevokeAccess? <==> n < 0)
      && (q.pc.ResolveNamespace? <==> n == 0)
  {
    hide Statuses.MarkTerminating, FailClusters, Statuses.Agrees;
  }

  // ---------- "deletion proceeds without a ProviderConfig" ----------

  /** Past the annotations, a pass goes on iff a config is cached; else it changes nothing but the status. */
  lemma NothingHappensWithoutConfig(w: World, p: Pass, c: Option<ProviderConfig>, epoch: nat)
    requires p.pc.LoadConfig?
    ensures var q := Passes.Step(p, Loaded(c, epoch));
      && (c.Some? <==> !Leaving(q))
      && (c.None? ==> Fails(q) && q.obj.status.phase == Progressing)
      && Effect(w, p, Loaded(c, epoch), NOTHING) == w
      && (c.None? ==> forall a :: var v := Effect(w, q, a, NOTHING);
            v == w.(kros := v.kros, clock := v.clock))
  {
    hide Statuses.MarkProgressing, PutKro;
  }

  // ---------- "teardown removes replicated secrets" ----------

  /** No call of any pass removes a secret from any store, or a namespace. */
  lemma SecretsAreNeverRemoved(w: World, p: Pass, a: Answer, h: Hidden)
    ensures forall s :: s in w.secrets ==> s in Effect(w, p, a, h).secrets
    ensures w.namespaces <= Effect(w, p, a, h).namespaces
  {
    hide Effect;
    forall s | s in w.secrets ensures s in Effect(w, p, a, h).secrets {
      assert s in w.secrets.Keys;
    }
  }

  // ---------- "a config change always reaches every Kro" ----------

  /** The pass has still to load its config, or failed before it did and will be tried again. */
  predicate YetToLoad(p: Pass) { BeforeLoad(p.pc) || (p.pc.Done? && p.epoch.None? && p.pc.result.failed) }

  /** At step `n` of the run a pass for `k` loads the cached config. */
  ghost predicate LoadsAt(r: Run, k: Key, n: nat) {
    && n < |r.actions| && n < |r.states| && r.actions[n].PassCalls? && r.actions[n].k == k
    && k in r.states[n].passes && r.states[n].passes[k].pc.LoadConfig?
  }

  ghost predicate LoadedBetween(r: Run, k: Key, i: nat, j: nat) { exists n: nat :: i < n < j && LoadsAt(r, k, n) }

  /** A pass for `k` has loaded the config that is cached now, whether it is still under way or over. */
  ghost predicate HasLoaded(s: System, k: Key) {
    || (k in s.passes && s.passes[k].epoch == Some(s.config.epoch))
    || (k in s.queue.used && s.queue.used[k] == s.config.epoch)
  }

  lemma LoadingHasLoaded(s: System, a: Action, k: Key)
    requires Wakeups.Timely(s, k) && s.config.history != [] && Enabled(s, a)
    requires a.PassEnds? ==> s.passes[a.k].key == a.k
    requires s.config.handler.Listing? && a != Restart && !a.KrosListed?
    requires a.PassCalls? && a.k == k ==>
      var p, q := s.passes[k], Passes.Step(s.passes[k], a.a);
      q.epoch == if p.pc.LoadConfig? then Some(s.config.epoch) else p.epoch
    ensures var t := Apply(s, a);
      && t.config.handler.Listing? && t.config.epoch == s.config.epoch
      && (HasLoaded(t, k) <==> HasLoaded(s, k) || (a.PassCalls? && a.k == k && s.passes[k].pc.LoadConfig?))
  {
    hide Effect, Act, Passes.Step, Lawful, Permitted, Watch;
  }

  /** Since the notification came, nobody but its handler has to do with the cache. */
  ghost predicate Listening(r: Run, i: nat, j: nat) {
    && i < j <= |r.actions| && r.actions[i] == ConfigReceived
    && forall n: nat :: i < n < j ==> r.actions[n] != Restart && !r.actions[n].KrosListed?
  }

  lemma {:induction false} LoadedSince(r: Run, k: Key, i: nat, j: nat)
    requires ValidRun(r) && Listening(r, i, j)
    ensures r.states[j].config.handler.Listing? && r.states[j].config.epoch == r.states[i].config.epoch + 1
    ensures HasLoaded(r.states[j], k) <==> LoadedBetween(r, k, i, j)
    decreases j
  {
    hide Apply, Enabled, Initial, HasLoaded, Coherence.Coherent, Wakeups.Timely, Wakeups.PassScheduled;
    RunStatesAreReachable(r, j - 1);
    Wakeups.ReachableIsScheduled(r.states[j - 1], k);
    if j == i + 1 {
      ReceivingIsNotLoading(r.states[i], k);
    } else {
      LoadedSince(r, k, i, j - 1);
      StepHasLoaded(r.states[j - 1], r.actions[j - 1], k);
      LoadedUpTo(r, k, i, j);
    }
  }

  lemma LoadedUpTo(r: Run, k: Key, i: nat, j: nat)
    requires i < j - 1
    ensures LoadedBetween(r, k, i, j) <==> LoadedBetween(r, k, i, j - 1) || LoadsAt(r, k, j - 1)
  {
    hide LoadsAt;
  }

  lemma ReceivingIsNotLoading(s: System, k: Key)
    requires Wakeups.Timely(s, k) && s.config.history != [] && Enabled(s, ConfigReceived)
    ensures var t := Apply(s, ConfigReceived);
      t.config.handler.Listing? && t.config.epoch == s.config.epoch + 1 && !HasLoaded(t, k)
  {
  }

  lemma StepHasLoaded(s: System, a: Action, k: Key)
    requires Reachable(s) && s.config.history != [] && Enabled(s, a)
    requires s.config.handler.Listing? && a != Restart && !a.KrosListed?
    ensures var t := Apply(s, a);
      && t.config.handler.Listing? && t.config.epoch == s.config.epoch
      && (HasLoaded(t, k) <==>
            HasLoaded(s, k) || (a.PassCalls? && a.k == k && k in s.passes && s.passes[k].pc.LoadConfig?))
  {
    hide Reachable, Apply, HasLoaded, Lawful, Permitted, Passes.Step, Coherence.Coherent, Wakeups.Timely, Wakeups.Was,
      Wakeups.Scheduled;
    Wakeups.ReachableIsScheduled(s, k);
    if a.PassEnds? { Wakeups.ReachableIsScheduled(s, a.k); }
    if a.PassCalls? && a.k == k {
      var p := s.passes[k];
      Wakeups.LoadedIsCached(s.world, p, s.config.stored.config, s.config.epoch, a.a, a.h);
      Wakeups.StepIsScheduled(p, a.a);
    }
    LoadingHasLoaded(s, a, k);
  }

  /**
   A notification whose listing fails reaches exactly the Kros that have to do with the config anyway, whatever
   others do between its receipt (step `i`) and the failure (step `j`): they are queued or backing off, or their
   pass has not come to the load yet, or one has loaded it since the receipt.
   */
  lemma FailedListingLosesUpdate(r: Run, k: Key, i: nat, j: nat)
    requires ValidRun(r) && Listening(r, i, j) && j < |r.actions| && r.actions[j] == KrosListed(false)
    ensures var s := r.states[j];
      Wakeups.Covered(r.states[j + 1], k) <==>
        || k in s.queue.ready || k in s.queue.retry
        || (k in s.passes && YetToLoad(s.passes[k]))
        || LoadedBetween(r, k, i, j)
  {
    hide Initial, Coherence.Coherent, LoadedBetween, Effect, Act, Passes.Step, Calls, Lawful, Permitted, Observe,
      Settle;
    LoadedSince(r, k, i, j);
    RunStatesAreReachable(r, j);
    Wakeups.ReachableIsScheduled(r.states[j], k);
    FailingToList(r.states[j], k);
    hide ValidRun, Apply;
  }

  lemma FailingToList(s: System, k: Key)
    requires s.config.history != [] && s.config.handler.Listing? && Wakeups.ScheduledAt(s, k)
    ensures Wakeups.Covered(Apply(s, KrosListed(false)), k) <==>
      || k in s.queue.ready || k in s.queue.retry
      || (k in s.passes && YetToLoad(s.passes[k]))
      || HasLoaded(s, k)
  {
    hide Poll;
  }

  // ---------- "every Kro is polled" ----------

  /** A pass that ends without a wait of its own comes back iff the configured interval is positive. */
  lemma OnlyPositiveIntervalsPoll(q: Queue, p: Pass, c: ProviderConfig)
    requires p.config == Some(c) && p.key !in q.timers
    ensures var r := ResultOf(Return(p, 0));
      (p.key in Settle(q, p, r).timers <==> c.pollInterval.None? || c.pollInterval.value > 0)
      && Settle(q, p, r).ready == q.ready && Settle(q, p, r).retry == q.retry
  {
  }
}
