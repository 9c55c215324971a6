/**
 Which Kros are sure to be reconciled again: none misses a config change, and none that is to be
 reconciled at all is ever left without a wake-up.
 */
module Wakeups {
  import opened Wrappers
  import opened Resources
  import opened Passes
  import opened Worlds
  import opened Operator
  import opened Coherence
  import opened Traces
  import Statuses
  import Versions

  /** A Kro the operator is to reconcile. */
  ghost predicate Wanted(w: World, k: Key) { k in w.kros && w.kros[k].op != Ignore }

  /** A pass that gave up without error before it loaded a config: the Kro was gone, or to be ignored. */
  predicate Quit(p: Pass) { Succeeds(p) && p.epoch.None? }

  /** The config is loaded once, and decides when a pass without a wait of its own comes back. */
  ghost predicate Scheduled(p: Pass) {
    && (BeforeLoad(p.pc) ==> p.epoch.None? && p.config.None?)
    && (p.epoch.None? ==> BeforeLoad(p.pc) || p.pc.Done?)
    && (Succeeds(p) && p.epoch.Some? ==>
          p.config.Some? && (ResultOf(p).requeue > 0 || ResultOf(p).requeue == Poll(p)))
    && (p.epoch.Some? && p.config.None? ==> Fails(p))
  }

  lemma StepIsScheduled(p: Pass, a: Answer)
    requires Scheduled(p) && (p.pc.LoadConfig? ==> a.Loaded?)
    ensures Scheduled(Passes.Step(p, a))
    ensures p.pc.LoadConfig? ==> Passes.Step(p, a).epoch == Some(a.epoch) && Passes.Step(p, a).config == a.config
    ensures !p.pc.LoadConfig? ==> Passes.Step(p, a).epoch == p.epoch && Passes.Step(p, a).config == p.config
  {
    if p.pc.LoadConfig? {
      hide AfterLoadConfig, Versions.PollInterval;
    } else {
      hide Passes.Step, Versions.PollInterval;
    }
  }

  /** Some value of the ProviderConfig was `config`. */
  ghost predicate Was(c: Propagation, config: Option<ProviderConfig>) {
    exists i :: 0 <= i < |c.history| && Effective(c.history[i]) == config
  }

  /** Passes load ever later writes of the cache. */
  ghost predicate Timely(s: System, k: Key) {
    && (k in s.queue.used ==> s.queue.used[k] <= s.config.epoch)
    && (k in s.passes && s.passes[k].epoch.Some? ==>
          s.passes[k].epoch.value <= s.config.epoch
            && (k in s.queue.used ==> s.queue.used[k] <= s.passes[k].epoch.value))
  }

  ghost predicate ScheduledAt(s: System, k: Key) {
    Timely(s, k) && (k in s.passes ==> PassScheduled(s, k))
  }

  ghost predicate PassScheduled(s: System, k: Key)
    requires k in s.passes
  {
      && s.passes[k].key == k && Scheduled(s.passes[k])
      && (s.passes[k].config.Some? ==> Was(s.config, s.passes[k].config))
  }

  lemma StepIsTimely(s: System, a: Action, k: Key)
    requires Timely(s, k) && s.config.history != [] && Enabled(s, a)
    requires a.PassEnds? ==> s.passes[a.k].key == a.k
    requires a.PassCalls? && a.k == k ==>
      var p := s.passes[k]; var q := Passes.Step(p, a.a); q.epoch == p.epoch || q.epoch == Some(s.config.epoch)
    ensures Timely(Apply(s, a), k)
  {
    hide Effect, Act, Passes.Step, Lawful, Permitted;
  }

  lemma WasStays(c: Propagation, d: Propagation, config: Option<ProviderConfig>)
    requires Was(c, config) && c.history <= d.history
    ensures Was(d, config)
  {
    var i :| 0 <= i < |c.history| && Effective(c.history[i]) == config;
    assert Effective(d.history[i]) == config;
  }

  lemma CacheWas(c: Propagation)
    requires Coherent(c) && c.stored.config.Some?
    ensures Was(c, c.stored.config)
  {
    assert Truthful(c, c.stored);
  }

  lemma LoadedIsCached(w: World, p: Pass, cache: Option<ProviderConfig>, epoch: nat, a: Answer, h: Hidden)
    requires Lawful(w, p, cache, epoch, a, h)
    ensures p.pc.LoadConfig? ==> a == Loaded(cache, epoch)
  {
    hide Written, RevokeRequests, NoRequests, AllGranted, RGDs;
  }

  lemma HistoryGrows(s: System, a: Action)
    requires s.config.history != [] && Enabled(s, a)
    ensures s.config.history <= Apply(s, a).config.history
  {
    hide Effect, Act, Passes.Step, Lawful, Permitted, Settle;
  }

  lemma StepKeepsSchedule(s: System, a: Action, k: Key)
    requires ScheduledAt(s, k) && Coherent(s.config) && s.config.history != [] && Enabled(s, a)
    requires a.PassEnds? ==> s.passes[a.k].key == a.k
    ensures ScheduledAt(Apply(s, a), k)
  {
    hide Timely, Scheduled, Was, Coherent, Effect, Act, Passes.Step, Stays, Lawful, Permitted, Observe, Settle;
    HistoryGrows(s, a);
    if a.PassCalls? && a.k == k {
      LoadedIsCached(s.world, s.passes[k], s.config.stored.config, s.config.epoch, a.a, a.h);
      StepIsScheduled(s.passes[k], a.a);
    }
    StepIsTimely(s, a, k);
    if a.PassCalls? && a.k == k {
      if s.config.stored.config.Some? { CacheWas(s.config); }
    } else if a == PassStarts(k) {
      FreshIsScheduled(k, s.time, s.needsWorkload);
    } else if k in Apply(s, a).passes && s.passes[k].config.Some? {
      WasStays(s.config, Apply(s, a).config, s.passes[k].config);
    }
  }

  lemma FreshIsScheduled(k: Key, now: nat, needs: bool)
    ensures Scheduled(StartPass(k, now, needs))
  {
  }

  lemma ReachableIsScheduled(s: System, k: Key)
    requires Reachable(s)
    ensures ScheduledAt(s, k) && Coherent(s.config)
  {
    hide Coherent, Timely, PassScheduled, Apply, Initial, Reachable;
    forall s: System | Initial(s) ensures Coherent(s.config) && AllScheduled(s) {
      InitialIsCoherent(s);
      forall k ensures ScheduledAt(s, k) { InitialIsScheduled(s, k); }
    }
    forall s: System, a, t | Coherent(s.config) && AllScheduled(s) && Joined(s, a, t)
      ensures Coherent(t.config) && AllScheduled(t)
    {
      StepIsCoherent(s, a);
      forall k ensures ScheduledAt(t, k) {
        if a.PassEnds? { KeyIsKept(s, a.k); }
        StepKeepsSchedule(s, a, k);
      }
    }
    HoldsWhereReachable((s: System) => Coherent(s.config) && AllScheduled(s), s);
  }

  ghost predicate AllScheduled(s: System) { forall k :: ScheduledAt(s, k) }

  lemma KeyIsKept(s: System, k: Key)
    requires ScheduledAt(s, k) && k in s.passes
    ensures s.passes[k].key == k
  {
  }

  lemma InitialIsScheduled(s: System, k: Key)
    requires Initial(s)
    ensures ScheduledAt(s, k)
  {
  }

  // ---------- never asleep ----------

  /** It asks for polling: at a positive interval, or at the default of a minute. */
  predicate PositiveInterval(c: ProviderConfig) { c.pollInterval.Some? ==> c.pollInterval.value > 0 }

  /** Every value the ProviderConfig has had asks for polling. */
  ghost predicate Polled(c: Propagation) {
    forall i :: 0 <= i < |c.history| && c.history[i].Present? && !c.history[i].deleting ==>
      PositiveInterval(c.history[i].config)
  }

  /** A wake-up is due: queued, backing off, on a timer, or a pass that will see to it. */
  ghost predicate Awake(s: System, k: Key) {
    || k in s.queue.ready || k in s.queue.retry || k in s.queue.timers
    || (k in s.passes && !Quit(s.passes[k]))
  }

  lemma WatchWakes(s: System, v: World, k: Key)
    ensures KroAt(s.world, k) != KroAt(v, k) ==> k in Watch(s, v).queue.ready
    ensures Watch(s, v) == s.(world := v, queue := s.queue.(ready := Watch(s, v).queue.ready))
    ensures s.queue.ready <= Watch(s, v).queue.ready
    ensures KroAt(s.world, k) == KroAt(v, k) ==> (Wanted(v, k) <==> Wanted(s.world, k))
  {
  }

  lemma QuittersAreUnwanted(w: World, p: Pass, cache: Option<ProviderConfig>, epoch: nat, a: Answer, h: Hidden)
    requires Lawful(w, p, cache, epoch, a, h) && Scheduled(p) && Quit(Passes.Step(p, a))
    ensures p.pc.GetKro? && !Wanted(w, p.key)
  {
    if p.pc.LoadConfig? { LoadedIsCached(w, p, cache, epoch, a, h); }
    StepIsScheduled(p, a);
    hide AfterGetKro, AfterPatchAnnotation, AfterLoadConfig, Written, RevokeRequests, NoRequests, AllGranted, RGDs;
  }

  lemma SettlingWakes(c: Propagation, q: Queue, p: Pass)
    requires p.pc.Done? && Scheduled(p) && (p.config.Some? ==> Was(c, p.config)) && Polled(c)
    ensures var r := Settle(q, p, p.pc.result);
      && q.ready <= r.ready && q.retry <= r.retry && q.timers <= r.timers
      && (Quit(p) || p.key in r.retry || p.key in r.timers)
  {
  }

  lemma SettlingKeeps(q: Queue, p: Pass, r: Outcome)
    ensures var t := Settle(q, p, r); q.ready == t.ready && q.retry <= t.retry && q.timers <= t.timers
    ensures p.epoch.None? ==> Settle(q, p, r).used == q.used
    ensures var t := Settle(q, p, r); forall k <- q.used :: k != p.key ==> k in t.used && t.used[k] == q.used[k]
  {
  }

  lemma FreshPassIsAwake(k: Key, now: nat, needs: bool)
    ensures !Quit(StartPass(k, now, needs)) && StartPass(k, now, needs).epoch.None?
  {
  }

  lemma StepKeepsAwake(s: System, a: Action, k: Key)
    requires ScheduledAt(s, k) && Polled(s.config) && s.config.history != [] && Enabled(s, a)
    requires Wanted(s.world, k) ==> Awake(s, k)
    ensures Wanted(Apply(s, a).world, k) ==> Awake(Apply(s, a), k)
  {
    hide Scheduled, Quit, Was, Polled, Watch, Effect, Act, Passes.Step, Lawful, Permitted, Observe, Settle, KroAt;
    match a
    case Environment(e) => WatchWakes(s, Act(s.world, e), k);
    case PassCalls(j, answer, h) =>
      var p := s.passes[j];
      WatchWakes(s, Effect(s.world, p, answer, h), k);
      if j == k && Quit(Passes.Step(p, answer)) {
        QuittersAreUnwanted(s.world, p, s.config.stored.config, s.config.epoch, answer, h);
      }
    case PassStarts(j) => if j == k { FreshPassIsAwake(k, s.time, s.needsWorkload); }
    case PassEnds(j) =>
      if j == k {
        SettlingWakes(s.config, s.queue, s.passes[k]);
      } else {
        SettlingKeeps(s.queue, s.passes[j], s.passes[j].pc.result);
      }
    case _ =>
  }

  lemma PolledBefore(c: Propagation, d: Propagation)
    requires Polled(d) && c.history <= d.history
    ensures Polled(c)
  {
    assert forall i :: 0 <= i < |c.history| ==> c.history[i] == d.history[i];
  }

  /**
   Never asleep: if every ProviderConfig so far has asked for a positive poll interval, a Kro that is
   not to be ignored always has a wake-up.
   */
  lemma NeverAsleep(r: Run, i: nat, k: Key)
    requires ValidRun(r) && i < |r.states| && Polled(r.states[i].config)
    requires Wanted(r.states[i].world, k)
    ensures Awake(r.states[i], k)
  {
    hide ValidRun, Polled, Awake, Wanted;
    AwakeAlongRuns(r, i, k);
  }

  lemma {:induction false} AwakeAlongRuns(r: Run, i: nat, k: Key)
    requires ValidRun(r) && i < |r.states| && Polled(r.states[i].config)
    ensures Wanted(r.states[i].world, k) ==> Awake(r.states[i], k)
  {
    hide Polled, Awake, Wanted, Coherent, ScheduledAt, Apply, Enabled, Initial;
    if i == 0 {
      InitialWantsNothing(r.states[0], k);
    } else {
      RunStatesAreReachable(r, i - 1);
      ReachableIsScheduled(r.states[i - 1], k);
      HistoryGrows(r.states[i - 1], r.actions[i - 1]);
      PolledBefore(r.states[i - 1].config, r.states[i].config);
      AwakeAlongRuns(r, i - 1, k);
      StepKeepsAwake(r.states[i - 1], r.actions[i - 1], k);
    }
  }

  lemma InitialWantsNothing(s: System, k: Key)
    requires Initial(s)
    ensures !Wanted(s.world, k)
  {
  }

  /** The Kro was gone, or to be ignored, when the pass looked. */
  ghost predicate Unneeded(t: seq<Call>) {
    && t != [] && t[0].pc.GetKro?
    && (t[0].answer.NotFound? || (t[0].answer.GotKro? && t[0].answer.kro.op == Ignore))
  }

  ghost predicate QuitsRightly(p: Pass, t: seq<Call>) {
    Scheduled(p) && (p.pc.GetKro? ==> t == []) && (Quit(p) ==> Unneeded(t))
  }

  lemma CallQuitsRightly(p: Pass, t: seq<Call>, a: Answer)
    requires QuitsRightly(p, t) && (p.pc.LoadConfig? ==> a.Loaded?)
    ensures QuitsRightly(Passes.Step(p, a), t + [Call(p.pc, a)])
  {
    StepIsScheduled(p, a);
    hide AfterGetKro, AfterPatchAnnotation, AfterLoadConfig, AfterGetForFinalizer, AfterUpdateFinalizer,
      AfterCheckRequest, AfterReconcileAccess, AfterGetCluster, AfterGetRequest, AfterResolveNamespace,
      AfterLook, AfterWrite, AfterCountRGDs, AfterDeleteObject, AfterConfirmGone, AfterRevokeAccess,
      AfterRemoveFinalizer, AfterPatchStatus, FailProgressing, Statuses.Agrees, AllReady, Poll;
  }

  /** The answers to LoadConfig in a trace are configs. */
  ghost predicate Loads(t: seq<Call>) { forall i :: 0 <= i < |t| && t[i].pc.LoadConfig? ==> t[i].answer.Loaded? }

  lemma {:induction false} TracedQuitsRightly(p: Pass, t: seq<Call>)
    requires Traced(p, t) && Loads(t)
    ensures QuitsRightly(p, t)
    decreases |t|
  {
    hide Passes.Step, QuitsRightly;
    if t == [] {
      FreshQuitsRightly(p);
    } else {
      var last := |t| - 1;
      var before := After(Fresh(p), t[..last]);
      TracedPrefix(p, t);
      TracedQuitsRightly(before, t[..last]);
      CallQuitsRightly(before, t[..last], t[last].answer);
      assert t == t[..last] + [t[last]];
    }
  }

  lemma FreshQuitsRightly(p: Pass)
    requires p == Fresh(p)
    ensures QuitsRightly(p, [])
  {
  }

  ghost predicate LoadsAt(s: System, k: Key) { Loads(TraceOf(s, k)) }

  lemma StepLoads(s: System, a: Action, k: Key)
    requires LoadsAt(s, k) && s.config.history != [] && Enabled(s, a)
    ensures LoadsAt(Apply(s, a), k)
  {
    hide Effect, Act, Passes.Step, Lawful, Permitted, Observe, Settle;
    if a.PassCalls? && a.k == k {
      LoadedIsCached(s.world, s.passes[k], s.config.stored.config, s.config.epoch, a.a, a.h);
    }
  }

  lemma ReachableLoads(s: System, k: Key)
    requires Reachable(s)
    ensures LoadsAt(s, k)
  {
    hide LoadsAt, Apply, Enabled, Initial, Reachable;
    forall s | Initial(s) ensures LoadsAt(s, k) { InitialLoads(s, k); }
    forall s, a, t | LoadsAt(s, k) && Joined(s, a, t) ensures LoadsAt(t, k) { StepLoads(s, a, k); }
    HoldsWhereReachable(s => LoadsAt(s, k), s);
  }

  lemma InitialLoads(s: System, k: Key)
    requires Initial(s)
    ensures LoadsAt(s, k)
  {
  }

  /** The only ends of a pass with neither an error nor a delay are "not found" and "ignore". */
  lemma QuietEndsAreRight(s: System, k: Key)
    requires Reachable(s) && Polled(s.config) && k in s.passes
    requires s.passes[k].pc.Done? && !s.passes[k].pc.result.failed && s.passes[k].pc.result.requeue <= 0
    ensures Unneeded(TraceOf(s, k))
  {
    hide Reachable, Traced, Loads, Unneeded;
    ReachableIsScheduled(s, k);
    ReachableIsTraced(s, k);
    ReachableLoads(s, k);
    TracedQuitsRightly(s.passes[k], TraceOf(s, k));
    QuietIsQuit(s.config, s.passes[k]);
  }

  lemma QuietIsQuit(c: Propagation, p: Pass)
    requires Scheduled(p) && (p.config.Some? ==> Was(c, p.config)) && Polled(c) && Succeeds(p)
      && ResultOf(p).requeue <= 0
    ensures Quit(p)
  {
  }

  // ---------- no lost update ----------

  /** `k` is pending, or being dealt with under the cached config, or was last dealt with under it. */
  ghost predicate Covered(s: System, k: Key) {
    || k in s.queue.ready || k in s.queue.retry
    || s.config.handler.Listing? || (s.config.handler.Enqueueing? && k in s.config.handler.keys)
    || (k in s.passes && UpToDate(s.passes[k], s.config.epoch))
    || (k in s.queue.used && s.queue.used[k] == s.config.epoch)
  }

  /** The pass has loaded, or will load, the config that is cached now. */
  ghost predicate UpToDate(p: Pass, epoch: nat) {
    p.epoch == Some(epoch) || (p.epoch.None? && !Quit(p))
  }

  lemma SettlingCovers(q: Queue, p: Pass, epoch: nat)
    requires p.pc.Done? && UpToDate(p, epoch)
    ensures var r := Settle(q, p, p.pc.result); p.key in r.retry || (p.key in r.used && r.used[p.key] == epoch)
  {
  }

  lemma StepKeepsCovered(s: System, a: Action, k: Key)
    requires ScheduledAt(s, k) && s.config.history != [] && Enabled(s, a)
    requires a.PassEnds? ==> ScheduledAt(s, a.k)
    requires a != KrosListed(false)
    requires Wanted(s.world, k) ==> Covered(s, k)
    ensures Wanted(Apply(s, a).world, k) ==> Covered(Apply(s, a), k)
  {
    hide Scheduled, Quit, Was, Watch, Effect, Act, Passes.Step, Lawful, Permitted, Settle, KroAt;
    match a
    case Environment(e) => WatchWakes(s, Act(s.world, e), k);
    case PassCalls(j, answer, h) =>
      var p := s.passes[j];
      WatchWakes(s, Effect(s.world, p, answer, h), k);
      if j == k {
        LoadedIsCached(s.world, p, s.config.stored.config, s.config.epoch, answer, h);
        StepIsScheduled(p, answer);
        if Quit(Passes.Step(p, answer)) {
          QuittersAreUnwanted(s.world, p, s.config.stored.config, s.config.epoch, answer, h);
        }
      }
    case PassStarts(j) => if j == k { FreshPassIsAwake(k, s.time, s.needsWorkload); }
    case PassEnds(j) =>
      SettlingKeeps(s.queue, s.passes[j], s.passes[j].pc.result);
      if j == k && UpToDate(s.passes[k], s.config.epoch) { SettlingCovers(s.queue, s.passes[k], s.config.epoch); }
    case KrosListed(ok) => assert ok; if k in s.world.kros { assert s.world.kros.Keys != {}; }
    case KroEnqueued(j) => if k != j && k in s.config.handler.keys { assert k in s.config.handler.keys - {j}; }
    case _ =>
  }

  /** No Kro that is to be reconciled misses the cached config. */
  ghost predicate AllCovered(s: System) { forall k :: Wanted(s.world, k) ==> Covered(s, k) }

  lemma StepKeepsAllCovered(s: System, a: Action)
    requires Reachable(s) && AllCovered(s) && s.config.history != [] && Enabled(s, a) && a != KrosListed(false)
    ensures AllCovered(Apply(s, a))
  {
    hide Reachable, Apply, Enabled, Wanted, Covered, ScheduledAt, Coherent;
    if a.PassEnds? { ReachableIsScheduled(s, a.k); }
    forall k ensures Wanted(Apply(s, a).world, k) ==> Covered(Apply(s, a), k) {
      ReachableIsScheduled(s, k);
      StepKeepsCovered(s, a, k);
    }
  }

  lemma ListingCoversAll(s: System)
    requires s.config.handler.Listing?
    ensures AllCovered(s)
  {
  }

  /** No listing of the Kros has failed before state `n`. */
  ghost predicate Listed(r: Run, n: nat) {
    forall i :: 0 <= i < n && i < |r.actions| ==> r.actions[i] != KrosListed(false)
  }

  /**
   No lost config update: as long as no listing of the Kros has failed, every Kro that is not to be
   ignored is pending, or in flight under the cached config, or was last completed under it.
   */
  lemma {:induction false} NoLostUpdate(r: Run, i: nat, k: Key)
    requires ValidRun(r) && i < |r.states| && Listed(r, i)
    ensures Wanted(r.states[i].world, k) ==> Covered(r.states[i], k)
  {
    hide Covered, Wanted, Coherent, Apply, Enabled, Initial;
    if i == 0 {
      InitialWantsNothing(r.states[0], k);
    } else {
      var s := r.states[i - 1];
      RunStatesAreReachable(r, i - 1);
      ReachableIsScheduled(s, k);
      if r.actions[i - 1].PassEnds? { ReachableIsScheduled(s, r.actions[i - 1].k); }
      NoLostUpdate(r, i - 1, k);
      StepKeepsCovered(s, r.actions[i - 1], k);
    }
  }
}
