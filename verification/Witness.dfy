/**
 Example runs, with a workload cluster: an installation is completed; after an update it is reported as
 ready by conditions that were observed before; it is torn down past a ResourceGraphDefinition that nobody
 counted, reported as ready on its way; and a config change is lost.
 */
module Witness {
  import opened Wrappers
  import opened Resources
  import opened Flux
  import opened Passes
  import opened Worlds
  import opened Operator
  import opened Coherence
  import opened Playbook
  import opened Installing
  import Guards
  import Phases
  import Reports
  import Statuses
  import Verdicts
  import Versions
  import Wakeups

  // ---------- a completed installation ----------

  const FIRST := KroVersion("1", "0.1", None, "", None)
  const SECOND := KroVersion("2", "0.2", None, "", None)
  const CONFIG := ProviderConfig([FIRST, SECOND], None)

  lemma BothAreOffered()
    ensures Versions.Resolve(Some(CONFIG), "1") == Success(FIRST)
    ensures Versions.Resolve(Some(CONFIG), "2") == Success(SECOND)
  {
    assert "1"[0] != "2"[0];
    assert Versions.FirstOffer(CONFIG.versions, "1") == 0;
    assert Versions.FirstOffer(CONFIG.versions, "2") == 1;
  }

  lemma Start() returns (s: System)
    ensures Reachable(s) && s.needsWorkload && s.passes == map[] && s.queue == Queue({}, {}, {}, map[])
    ensures s.world.kros == map[] && s.world.requests == map[] && s.world.flux == map[]
    ensures s.config == Propagation([Absent], false, None, [], NO_MESSAGE, 0, Waiting)
  {
    s := System(World(map[], map[], map[], map[], {}, map[], 0, {}, map[]), map[], map[], true,
      Queue({}, {}, {}, map[]), Propagation([Absent], false, None, [], NO_MESSAGE, 0, Waiting), 0);
    var r := Run([s], []);
    assert ValidRun(r) && r.states[|r.actions|] == s;
  }

  /** `CONFIG` is cached, and its handler is waiting for the next one. */
  ghost predicate Configured(s: System) {
    && s.needsWorkload && s.config.stored.config == Some(CONFIG)
    && s.config.handler.Waiting? && s.config.channel == [] && s.config.sending.None?
  }

  lemma GetConfigured() returns (s: System)
    ensures Reachable(s) && Configured(s) && s.passes == map[] && s.queue == Queue({}, {}, {}, map[])
    ensures s.world.kros == map[] && s.world.requests == map[] && s.world.flux == map[]
  {
    hide Reachable;
    s := Start();
    s := Take(s, ConfigChanges(LiveConfig.Present(CONFIG, false)));
    s := Take(s, ConfigObserved(true));
    s := Take(s, ConfigSent);
    s := Take(s, ConfigReceived);
    s := Take(s, KrosListed(true));
  }

  /** A pass starts for a Kro that is due. */
  lemma Begin(s: System) returns (t: System)
    requires Reachable(s) && s.needsWorkload && s.config.stored.config.Some? && KEY in s.queue.ready
    requires KEY !in s.passes
    ensures Reachable(t) && Starting(t) && t.passes == s.passes[KEY := t.passes[KEY]]
    ensures t == s.(passes := t.passes, traces := t.traces, queue := s.queue.(ready := s.queue.ready - {KEY}))
  {
    hide Reachable;
    t := Take(s, PassStarts(KEY));
  }

  /** A pass ends well, to come back later. */
  lemma End(s: System, n: int, epoch: nat) returns (t: System)
    requires Reachable(s) && KEY in s.passes && n > 0
    requires var p := s.passes[KEY]; p.key == KEY && p.pc == Done(Outcome(n, false)) && p.epoch == Some(epoch)
    ensures Reachable(t)
    ensures t == s.(passes := s.passes - {KEY},
      queue := s.queue.(timers := s.queue.timers + {KEY}, used := s.queue.used[KEY := epoch]))
  {
    hide Reachable;
    t := Take(s, PassEnds(KEY));
  }

  const BOTH := Hidden({MCP, Workload}, {})

  /** The first pass adds the finalizer and asks for access. */
  ghost predicate Asked(s: System) {
    && Configured(s) && KEY !in s.passes && s.world.flux == map[] && KEY in s.queue.ready && KEY !in s.queue.retry
    && KEY in s.world.kros && s.world.requests.Keys == {MCP_REQUEST, WORKLOAD_REQUEST}
    && !s.world.requests[MCP_REQUEST].deleting && !s.world.requests[WORKLOAD_REQUEST].deleting
    && var kro := s.world.kros[KEY];
       kro == Kro("1", NoOperation, 1, kro.rv, false, true, false, EMPTY_STATUS)
  }

  lemma CreateKro() returns (s: System)
    ensures Reachable(s) && Configured(s) && Starting(s) && s.world.flux == map[] && s.world.requests == map[]
    ensures KEY in s.world.kros && s.queue.retry == {}
    ensures var kro := s.world.kros[KEY]; kro == Kro("1", NoOperation, 1, kro.rv, false, false, false, EMPTY_STATUS)
  {
    hide Reachable;
    s := GetConfigured();
    s := Wait(s, UserCreates(KEY, "1", NoOperation, false));
    s := Begin(s);
  }

  lemma AddFinalizer() returns (s: System)
    ensures Reachable(s) && Configured(s) && s.world.flux == map[] && s.world.requests == map[]
    ensures KEY in s.queue.ready && KEY !in s.queue.retry && KEY in s.world.kros && KEY in s.passes
    ensures var kro, p := s.world.kros[KEY], s.passes[KEY];
      && kro == Kro("1", NoOperation, 1, kro.rv, false, true, false, EMPTY_STATUS)
      && p.key == KEY && p.needsWorkload && p.pc.ReconcileAccess? && p.mode == Creating && p.epoch.Some?
      && p.obj == kro && p.snapshot == EMPTY_STATUS
  {
    hide Reachable, Leads;
    s := CreateKro();
    s := ReachFinalizer(s);
    var w, p := s.world, s.passes[KEY];
    AddingFinalizer(w, p, s.config.stored.config, s.config.epoch);
    var kro := Bumped(w, w.kros[KEY].(finalizer := true));
    s := DriveChange(s, GotKro(kro), Tick(w.(kros := w.kros[KEY := kro])), p.(obj := kro, pc := ReconcileAccess));
  }

  /** A call that changes the Kro has it queued again. */
  lemma DriveChange(s: System, a: Answer, v: World, q: Pass) returns (t: System)
    requires Reachable(s) && KEY in s.passes && KroAt(s.world, KEY) != KroAt(v, KEY)
    requires Leads(s.world, s.passes[KEY], s.config.stored.config, s.config.epoch, a, NOTHING, v, q)
    ensures Reachable(t) && t == s.(world := v, passes := s.passes[KEY := q], traces := t.traces, queue := t.queue)
    ensures TraceOf(t, KEY) == TraceOf(s, KEY) + [Call(s.passes[KEY].pc, a)]
    ensures t.queue == s.queue.(ready := t.queue.ready) && KEY in t.queue.ready
  {
    hide Reachable, Lawful, Effect, Passes.Step;
    t := Take(s, PassCalls(KEY, a, NOTHING));
  }

  lemma AskForAccess() returns (s: System)
    ensures Reachable(s) && Asked(s)
  {
    hide Reachable, Leads;
    s := AddFinalizer();
    var p := s.passes[KEY];
    AskingForAccess(s.world, p, s.config.stored.config, s.config.epoch, BOTH);
    var v := MakeRequests(s.world, KEY, BOTH.first);
    s := Drive(s, Delay(1), BOTH, v, p.(delay := 1, pc := Done(Outcome(1, false))));
    s := End(s, 1, p.epoch.value);
  }

  /** Everything is there for a create pass, and it is due. */
  ghost predicate Prepared(s: System) {
    && Configured(s) && KEY !in s.passes && KEY in s.queue.ready && Ground(s.world)
    && !s.world.kros[KEY].deleting
  }

  lemma Prepare() returns (s: System)
    ensures Reachable(s) && Prepared(s) && s.world.flux == map[] && s.world.kros[KEY].version == "1"
  {
    hide Reachable;
    s := AskForAccess();
    s := Wait(s, ProviderGrants(MCP_REQUEST, MCP_SECRET));
    s := Wait(s, ProviderGrants(WORKLOAD_REQUEST, WORKLOAD_SECRET));
    s := Wait(s, SomeoneStores(SOURCE, Secret("Opaque", map[KUBECONFIG_KEY := "..."])));
  }

  /** A whole create pass, but for its end. */
  lemma InstallFrom(s: System, v: KroVersion) returns (t: System)
    requires Reachable(s) && Prepared(s) && Plain(v)
    requires Versions.Resolve(Some(CONFIG), s.world.kros[KEY].version) == Success(v)
    ensures Reachable(t) && Configured(t) && Finished(s.world, t, v) && Ground(t.world)
  {
    hide Reachable, Finished, Versions.Resolve, Statuses.MarkProgressing, Statuses.Agrees;
    t := Begin(s);
    t := ReachFinalizer(t);
    t := GainAccess(t);
    t := Install(t, v);
  }

  /**
   An installation that is completed: every object was made for the version asked for, by a pass that then ends
   without error.
   */
  lemma InstallationCompletes() returns (s: System)
    ensures Reachable(s) && KEY in s.passes && Reports.HasEntered(TraceOf(s, KEY))
    ensures s.passes[KEY].mode == Creating && Succeeds(s.passes[KEY])
    ensures forall which :: New(s.world, FIRST, which)
  {
    hide Reachable, Reports.HasEntered, New, Finished;
    var w: World;
    s, w := InstallFirst();
    FinishedIsLeaving(w, s, FIRST);
  }

  lemma InstallFirst() returns (s: System, w: World)
    ensures Reachable(s) && Configured(s) && Finished(w, s, FIRST) && Ground(w) && !s.world.kros[KEY].deleting
    ensures forall which :: New(s.world, FIRST, which)
  {
    hide Reachable, Reports.HasEntered, Wish, Ground, AllReady;
    BothAreOffered();
    s := Prepare();
    w := s.world;
    s := InstallFrom(s, FIRST);
    FreshIsFirst(w, s.world, FIRST);
  }

  lemma FinishedIsLeaving(w: World, s: System, v: KroVersion)
    requires Finished(w, s, v)
    ensures KEY in s.passes && s.passes[KEY].key == KEY && Reports.HasEntered(TraceOf(s, KEY))
    ensures s.passes[KEY].mode == Creating && Succeeds(s.passes[KEY])
    ensures s.world.kros == w.kros
  {
  }

  /** The object was made for `v`, and nothing has been observed of it. */
  ghost predicate New(w: World, v: KroVersion, which: Which) {
    && Ref(which) in w.flux
    && w.flux[Ref(which)] == FluxObject(Wish(v, which), 1, w.flux[Ref(which)].rv, false, false, [])
  }

  lemma FreshIsFirst(w0: World, w: World, v: KroVersion)
    requires w0.flux == map[] && Advanced(w0, w, v, {Oci, Main, Crds})
    ensures forall which :: New(w, v, which)
  {
    hide Wish, Ground;
    forall which ensures Settled(w0, w, v, which) {
      match which case Oci => case Main => case Crds =>
    }
  }

  // ---------- ready by a verdict on something else ----------

  const VERDICT := Condition(Statuses.READY, CondTrue, 1, "", "", 0)

  /** Flux has found the object to be ready, as it is. */
  ghost predicate Approved(w: World, v: KroVersion, which: Which) {
    && Ref(which) in w.flux
    && w.flux[Ref(which)] == FluxObject(Wish(v, which), 1, w.flux[Ref(which)].rv, false, false, [VERDICT])
  }

  lemma Approve(s: System, which: Which) returns (t: System)
    requires Reachable(s) && New(s.world, FIRST, which)
    ensures Reachable(t) && t == s.(world := t.world, queue := s.queue)
    ensures t.world == s.world.(flux := t.world.flux, clock := t.world.clock) && Approved(t.world, FIRST, which)
    ensures forall other :: other != which ==>
      && (New(s.world, FIRST, other) ==> New(t.world, FIRST, other))
      && (Approved(s.world, FIRST, other) ==> Approved(t.world, FIRST, other))
  {
    hide Reachable, Wish;
    RefsDiffer();
    t := Wait(s, FluxReports(Ref(which), [VERDICT]));
  }

  /** The last calls of a pass that ended well: it writes its report back, and is over. */
  lemma Close(s: System) returns (t: System)
    requires Reachable(s) && Configured(s) && Ground(s.world) && KEY in s.passes && s.passes[KEY].key == KEY
    requires Succeeds(s.passes[KEY]) && ResultOf(s.passes[KEY]).requeue > 0 && s.passes[KEY].epoch.Some?
    ensures Reachable(t) && Configured(t) && KEY !in t.passes && Ground(t.world)
    ensures t.world == s.world.(kros := t.world.kros, clock := t.world.clock)
    ensures t.world.kros[KEY].deleting == s.world.kros[KEY].deleting
    ensures t.world.kros[KEY].version == s.world.kros[KEY].version
  {
    hide Reachable, Leads;
    t := s;
    var p := s.passes[KEY];
    if p.pc.PatchStatus? {
      PatchingStatus(s.world, p, s.config.stored.config, s.config.epoch);
      var kro := Bumped(s.world, s.world.kros[KEY].(status := p.obj.status));
      t := Drive(t, Ok, NOTHING, Tick(s.world.(kros := s.world.kros[KEY := kro])), p.(pc := Done(p.pc.result)));
    }
    t := End(t, ResultOf(p).requeue, p.epoch.value);
  }

  lemma FinishedComesBack(s: System, v: KroVersion, w0: World)
    requires Reachable(s) && Configured(s) && Finished(w0, s, v)
    ensures ResultOf(s.passes[KEY]).requeue > 0 && s.passes[KEY].epoch.Some?
  {
    hide Reachable, Coherent, Advanced, Reports.HasEntered, AllReady;
    Wakeups.ReachableIsScheduled(s, KEY);
  }

  lemma FinishInstallation() returns (s: System)
    ensures Reachable(s) && Configured(s) && KEY !in s.passes && Ground(s.world) && !s.world.kros[KEY].deleting
    ensures forall which :: New(s.world, FIRST, which)
  {
    hide Reachable, Finished, New, Configured;
    var w: World;
    s, w := InstallFirst();
    FinishedComesBack(s, FIRST, w);
    FinishedIsGrounded(w, s, FIRST);
    FinishedIsLeaving(w, s, FIRST);
    var before := s.world;
    s := Close(s);
    forall which ensures New(s.world, FIRST, which) { NoveltyStays(before, s.world, which); }
  }

  lemma NoveltyStays(w: World, v: World, which: Which)
    requires New(w, FIRST, which) && v.flux == w.flux
    ensures New(v, FIRST, which)
  {
  }

  /** The objects of the first version are there and ready, and the second is asked for. */
  lemma Update() returns (s: System)
    ensures Reachable(s) && Prepared(s) && s.world.kros[KEY].version == "2"
    ensures forall which :: Approved(s.world, FIRST, which)
  {
    hide Reachable, New, Approved;
    s := FinishInstallation();
    s := Approve(s, Oci);
    s := Approve(s, Main);
    s := Approve(s, Crds);
    var w := s.world;
    s := Wait(s, UserEdits(KEY, "2"));
    assert Approved(w, FIRST, Oci) && Approved(w, FIRST, Main) && Approved(w, FIRST, Crds);
    forall which: Which ensures Approved(w, FIRST, which) {
      match which case Oci => case Main => case Crds =>
    }
    forall which ensures Approved(s.world, FIRST, which) { ApprovalStays(w, s.world, which); }
  }

  lemma ApprovalStays(w: World, v: World, which: Which)
    requires Approved(w, FIRST, which) && v.flux == w.flux
    ensures Approved(v, FIRST, which)
  {
  }

  /** After the update: a new generation where the spec has changed, and the old verdict everywhere. */
  lemma UpdatedIsStale(w0: World, w: World)
    requires Advanced(w0, w, SECOND, {Oci, Main, Crds}) && forall which :: Approved(w0, FIRST, which)
    ensures forall which :: Ref(which) in w.flux && w.flux[Ref(which)].conditions == [VERDICT]
    ensures w.flux[Ref(Oci)].generation == 2 && w.flux[Ref(Oci)].spec == Wish(SECOND, Oci) != Wish(FIRST, Oci)
    ensures forall which :: !w.flux[Ref(which)].held
  {
    hide Ground;
    forall which ensures Settled(w0, w, SECOND, which) && Approved(w0, FIRST, which) {
      match which case Oci => case Main => case Crds =>
    }
  }

  lemma VerdictIsReady()
    ensures SaysReady([VERDICT])
  {
    assert FirstReady([VERDICT], 0);
  }

  lemma UpdateInstalls() returns (s: System, w: World)
    ensures Reachable(s) && Configured(s) && Finished(w, s, SECOND) && Ground(w) && !w.kros[KEY].deleting
    ensures forall which :: Approved(w, FIRST, which)
  {
    hide Reachable, Finished, Approved;
    BothAreOffered();
    s := Update();
    w := s.world;
    s := InstallFrom(s, SECOND);
  }

  /**
   "Ready means that the wanted specs are ready" is false: here a pass reports Ready of a chart source that it has
   just written, by a condition observed at the generation before.
   */
  lemma ReadyIsStale() returns (s: System)
    ensures Reachable(s) && KEY in s.passes && Reports.HasEntered(TraceOf(s, KEY))
    ensures var p := s.passes[KEY];
      p.mode == Creating && Succeeds(p) && p.obj.status.phase == Ready && p.version == SECOND
    ensures Ref(Oci) in s.world.flux && s.world.flux[Ref(Oci)].spec == OciRepositorySpec(SECOND)
    ensures !Verdicts.Current(s.world.flux[Ref(Oci)])
  {
    hide Reachable, Advanced, Reports.HasEntered, Ground, SaysReady, Approved;
    var w: World;
    s, w := UpdateInstalls();
    UpdatedIsStale(w, s.world);
    VerdictIsReady();
  }

  // ---------- past the guard ----------

  /** The Kro is being deleted, with all its objects in place, and one definition left. */
  ghost predicate Sentenced(s: System) {
    && Configured(s) && KEY !in s.passes && KEY in s.queue.ready && Ground(s.world) && s.world.kros[KEY].deleting
    && (forall which :: Ref(which) in s.world.flux && !s.world.flux[Ref(which)].held)
    && RGDs(s.world, KEY) == 1
  }

  lemma DeleteKro() returns (s: System)
    ensures Reachable(s) && Sentenced(s)
  {
    hide Reachable, Finished, Advanced, Approved;
    var w: World;
    s, w := UpdateInstalls();
    FinishedIsAdvanced(w, s, SECOND);
    UpdatedIsStale(w, s.world);
    FinishedComesBack(s, SECOND, w);
    FinishedIsGrounded(w, s, SECOND);
    FinishedIsLeaving(w, s, SECOND);
    s := Close(s);
    s := Wait(s, UserSetsRGDs(KEY, 1));
    s := Wait(s, UserDeletes(KEY));
  }

  lemma FinishedIsAdvanced(w0: World, s: System, v: KroVersion)
    requires Finished(w0, s, v)
    ensures Advanced(w0, s.world, v, {Oci, Main, Crds})
  {
  }

  /** The pass has never counted the definitions. */
  ghost predicate Uncounted(s: System) { forall c <- TraceOf(s, KEY) :: !c.pc.CountRGDs? }

  /** The `i`th object was asked to go, and was there. */
  ghost predicate Removed(s: System, i: nat) {
    i < 3 && Call(DeleteObject(i, DeleteTargets(Tenant(KEY))[i]), Ok) in TraceOf(s, KEY)
  }

  /** A pass that dismantles, without having counted, with the objects from `n` on still in place. */
  ghost predicate Dismantling(s: System, n: nat) {
    && s.needsWorkload && KEY in s.passes && Uncounted(s) && RGDs(s.world, KEY) == 1
    && Ground(s.world) && s.world.kros[KEY].deleting
    && (forall i: nat :: i < n && i < 3 ==> Removed(s, i))
    && (forall i: nat :: i < 3 ==>
          var ref := DeleteTargets(Tenant(KEY))[i];
          if i < n then ref !in s.world.flux else ref in s.world.flux && !s.world.flux[ref].held)
    && var p := s.passes[KEY];
       && p.key == KEY && p.mode == Deleting && !p.lingering && p.needsWorkload && p.obj.rv == s.world.kros[KEY].rv
       && !p.ctx.mcp && Phases.TakesDown(TraceOf(s, KEY)) && !Guards.AccessLost(TraceOf(s, KEY))
  }

  /** A call that counts nothing and loses nothing keeps it so. */
  lemma Remove(s: System, a: Answer, h: Hidden, v: World, q: Pass, n: nat) returns (t: System)
    requires Reachable(s) && Dismantling(s, n)
    requires Leads(s.world, s.passes[KEY], s.config.stored.config, s.config.epoch, a, h, v, q)
    requires !s.passes[KEY].pc.CountRGDs? && !s.passes[KEY].pc.CheckRequest? && v.kros == s.world.kros
    requires v.rgds == s.world.rgds && Ground(v)
    requires var p := s.passes[KEY]; q == p.(pc := q.pc, obj := q.obj, delay := q.delay) && q.obj.rv == p.obj.rv
    requires s.passes[KEY].pc.DeleteObject? && a.Ok? ==>
      s.passes[KEY].pc.i < 3 && s.passes[KEY].pc.ref == DeleteTargets(Tenant(KEY))[s.passes[KEY].pc.i]
    ensures Reachable(t) && t == s.(world := v, passes := s.passes[KEY := q], traces := t.traces)
    ensures TraceOf(t, KEY) == TraceOf(s, KEY) + [Call(s.passes[KEY].pc, a)]
    ensures Uncounted(t) && Phases.TakesDown(TraceOf(t, KEY)) && !Guards.AccessLost(TraceOf(t, KEY))
    ensures forall i: nat :: Removed(s, i) ==> Removed(t, i)
    ensures s.passes[KEY].pc.DeleteObject? && a.Ok? ==> Removed(t, s.passes[KEY].pc.i)
  {
    hide Reachable, Leads, Ground;
    var c := Call(s.passes[KEY].pc, a);
    t := Drive(s, a, h, v, q);
    Phases.AppendTells(TraceOf(s, KEY), c);
    assert forall d <- TraceOf(s, KEY) :: d in TraceOf(t, KEY);
    assert c in TraceOf(t, KEY);
    hide Phases.TakesDown, Guards.AccessLost;
  }

  /** The Kro is seen to be deleted, and its access requests to be live. */
  lemma CheckAccess(s0: System) returns (s: System)
    requires Reachable(s0) && Sentenced(s0)
    ensures Reachable(s) && s.world == s0.world && s.needsWorkload && KEY in s.passes
    ensures s.config == s0.config
    ensures var p := s.passes[KEY];
      && p.key == KEY && p.mode == Deleting && !p.lingering && p.needsWorkload && p.ctx == NO_CLUSTERS
      && p.obj == s.world.kros[KEY] && p.pc.ReconcileAccess?
    ensures TraceOf(s, KEY) == [] + [Call(GetKro, GotKro(s.world.kros[KEY]))]
      + [Call(LoadConfig, Loaded(s.config.stored.config, s.config.epoch))]
      + [Call(CheckRequest(MCP), GotRequest(s.world.requests[MCP_REQUEST]))]
      + [Call(CheckRequest(Workload), GotRequest(s.world.requests[WORKLOAD_REQUEST]))]
  {
    hide Reachable, Leads, RGDs;
    s := Begin(s0);
    var w, c, n := s.world, s.config.stored.config, s.config.epoch;
    var kro := w.kros[KEY];
    var p := s.passes[KEY];
    Reading(w, p, c, n);
    p := p.(obj := kro, snapshot := kro.status, pc := LoadConfig);
    s := Drive(s, GotKro(kro), NOTHING, w, p);
    Loading(w, p, c, n);
    p := p.(config := c, epoch := Some(n), mode := Deleting, pc := CheckRequest(MCP));
    s := Drive(s, Loaded(c, n), NOTHING, w, p);
    Checking(w, p, c, n);
    p := p.(pc := CheckRequest(Workload));
    s := Drive(s, GotRequest(w.requests[MCP_REQUEST]), NOTHING, w, p);
    Checking(w, p, c, n);
    s := Drive(s, GotRequest(w.requests[WORKLOAD_REQUEST]), NOTHING, w, p.(pc := ReconcileAccess));
  }

  /** The provider asks to wait, and the pass goes on without handles. */
  lemma BeginDismantling(s0: System) returns (s: System)
    requires Reachable(s0) && Sentenced(s0)
    ensures Reachable(s) && Dismantling(s, 0) && s.passes[KEY].pc.ResolveNamespace? && s.passes[KEY].mode == Deleting
  {
    hide Reachable, Leads, Statuses.MarkTerminating, RGDs, Phases.TakesDown, Guards.AccessLost;
    s := CheckAccess(s0);
    var w, c, n := s.world, s.config.stored.config, s.config.epoch;
    var p := s.passes[KEY];
    NotWaiting(w, p, c, n);
    p := p.(delay := 0, obj := Statuses.MarkTerminating(p.obj, p.now), pc := ResolveNamespace);
    s := Drive(s, Delay(1), NOTHING, w, p);
    TraceToAccess(TraceOf(s, KEY), w.kros[KEY], c, n, w.requests[MCP_REQUEST], w.requests[WORKLOAD_REQUEST]);
    TargetsAreThere(s);
  }

  lemma TraceToAccess(t: seq<Call>, kro: Kro, c: Option<ProviderConfig>, n: nat, r1: AccessRequest, r2: AccessRequest)
    requires t == [] + [Call(GetKro, GotKro(kro))] + [Call(LoadConfig, Loaded(c, n))]
      + [Call(CheckRequest(MCP), GotRequest(r1))] + [Call(CheckRequest(Workload), GotRequest(r2))]
      + [Call(ReconcileAccess, Delay(1))]
    requires !r1.deleting && !r2.deleting
    ensures Phases.TakesDown(t) && !Guards.AccessLost(t) && forall d <- t :: !d.pc.CountRGDs?
  {
    assert t[2].pc.CheckRequest?;
  }

  lemma TargetsAreThere(s: System)
    requires forall which :: Ref(which) in s.world.flux && !s.world.flux[Ref(which)].held
    ensures forall i: nat :: i < 3 ==>
      DeleteTargets(Tenant(KEY))[i] in s.world.flux && !s.world.flux[DeleteTargets(Tenant(KEY))[i]].held
  {
    var targets := DeleteTargets(Tenant(KEY));
    assert targets[0] == Ref(Oci) && targets[1] == Ref(Main) && targets[2] == Ref(Crds);
  }

  /** With a definition left, and never having counted, the pass is about to delete the first of three objects. */
  lemma DefinitionsCanBeIgnored() returns (s: System)
    ensures Reachable(s) && Dismantling(s, 0) && Uncounted(s) && RGDs(s.world, KEY) == 1 && s.needsWorkload
    ensures forall i: nat :: i < 3 ==> DeleteTargets(Tenant(KEY))[i] in s.world.flux
    ensures s.passes[KEY].pc == DeleteObject(0, DeleteTargets(Tenant(KEY))[0])
  {
    hide Reachable, Leads, Sentenced;
    s := DeleteKro();
    s := BeginDismantling(s);
    SkippingGuard(s.world, s.passes[KEY], s.config.stored.config, s.config.epoch);
    s := Remove(s, Ok, NOTHING, s.world, BeginTeardown(s.passes[KEY]), 0);
    hide Ground, Phases.TakesDown, Guards.AccessLost;
  }

  /** The object is asked to go, and goes. */
  lemma AskToGo(s: System, i: nat) returns (t: System)
    requires Reachable(s) && i < 3 && Dismantling(s, i)
    requires s.passes[KEY].pc == DeleteObject(i, DeleteTargets(Tenant(KEY))[i])
    ensures Reachable(t) && Dismantling(t, i + 1)
    ensures t.passes[KEY].pc == ConfirmGone(i, DeleteTargets(Tenant(KEY))[i])
  {
    hide Reachable, Leads, Ground, Uncounted, Phases.TakesDown, Guards.AccessLost;
    var ref := DeleteTargets(Tenant(KEY))[i];
    var w, p := s.world, s.passes[KEY];
    RemovingFlux(w, p, s.config.stored.config, s.config.epoch, i, ref);
    var v := Tick(w.(flux := w.flux - {ref}));
    KeepsGround(w, v);
    t := Remove(s, Ok, NOTHING, v, p.(pc := ConfirmGone(i, ref)), i);
    TargetsDiffer();
  }

  /** It is seen to be gone. */
  lemma SeeGone(s: System, i: nat) returns (t: System)
    requires Reachable(s) && i < 3 && Dismantling(s, i + 1)
    requires s.passes[KEY].pc == ConfirmGone(i, DeleteTargets(Tenant(KEY))[i])
    ensures Reachable(t) && Dismantling(t, i + 1)
    ensures i < 2 ==> t.passes[KEY].pc == DeleteObject(i + 1, DeleteTargets(Tenant(KEY))[i + 1])
    ensures i == 2 ==> t.passes[KEY].pc.RevokeAccess? && t.passes[KEY].obj.status.phase == Ready
  {
    hide Reachable, Leads, Ground, Uncounted, Phases.TakesDown, Guards.AccessLost;
    var targets := DeleteTargets(Tenant(KEY));
    var w, q, c, n := s.world, s.passes[KEY], s.config.stored.config, s.config.epoch;
    if i < 2 {
      Confirming(w, q, c, n, i, targets[i]);
      t := Remove(s, NotFound, NOTHING, w, q.(pc := DeleteObject(i + 1, targets[i + 1])), i + 1);
    } else {
      ConfirmingLast(w, q, c, n, targets[i]);
      FinishKeeps(q);
      t := Remove(s, NotFound, NOTHING, w, FinishTeardown(q), i + 1);
    }
  }

  lemma TargetsDiffer()
    ensures var targets := DeleteTargets(Tenant(KEY));
      forall i: nat, j: nat :: i < j < 3 ==> targets[i] != targets[j]
  {
    assert |HELM_RELEASE_NAME| != |MCP_HELM_RELEASE_NAME|;
  }

  lemma FinishKeeps(p: Pass)
    requires !p.lingering
    ensures var q := FinishTeardown(p); q == p.(pc := q.pc, obj := q.obj) && q.obj.rv == p.obj.rv
  {
    hide Statuses.Agrees;
  }

  lemma RemoveAll() returns (s: System)
    ensures Reachable(s) && Dismantling(s, 3) && s.passes[KEY].pc.RevokeAccess?
    ensures s.passes[KEY].obj.status.phase == Ready
  {
    hide Reachable, Dismantling;
    s := DefinitionsCanBeIgnored();
    s := AskToGo(s, 0);
    s := SeeGone(s, 0);
    s := AskToGo(s, 1);
    s := SeeGone(s, 1);
    s := AskToGo(s, 2);
    s := SeeGone(s, 2);
  }

  /** A Kro that is being deleted is reported as Ready, while its access is being given up. */
  lemma DeletingKroIsReady() returns (s: System)
    ensures Reachable(s) && KEY in s.passes && Leaving(s.passes[KEY]) && s.passes[KEY].obj.status.phase == Ready
    ensures Phases.TakesDown(TraceOf(s, KEY)) && KEY in s.world.kros && s.world.kros[KEY].deleting
  {
    hide Reachable, Leads;
    s := RemoveAll();
    var w, p := s.world, s.passes[KEY];
    RevokingSlowly(w, p, s.config.stored.config, s.config.epoch);
    var c := Call(RevokeAccess, Delay(1));
    Phases.AppendTells(TraceOf(s, KEY), c);
    s := Drive(s, Delay(1), BOTH, RevokeRequests(w, KEY, BOTH), Return(p, 1));
    hide RevokeRequests, Phases.TakesDown, Guards.AccessLost, Return;
  }

  /**
   "ResourceGraphDefinitions always block deletion" is false: in some run, with a workload cluster, three objects are
   there and removed, and the Kro and its access go with them, while a definition is left; the pass that does it
   has never counted.
   */
  lemma KroGoneDefinitionLeft() returns (s: System)
    ensures Reachable(s) && s.needsWorkload && KEY !in s.world.kros && NoRequests(s.world, KEY)
    ensures RGDs(s.world, KEY) == 1 && Uncounted(s) && forall i: nat :: i < 3 ==> Removed(s, i)
    ensures forall i: nat :: i < 3 ==> DeleteTargets(Tenant(KEY))[i] !in s.world.flux
  {
    hide Reachable, Leads;
    s := RemoveAll();
    var w, p := s.world, s.passes[KEY];
    Revoking(w, p, s.config.stored.config, s.config.epoch);
    var v := RevokeRequests(w, KEY, Hidden({}, {MCP, Workload}));
    var q := p.(obj := p.obj.(finalizer := false), pc := RemoveFinalizer);
    var t := Drive(s, Delay(0), Hidden({}, {MCP, Workload}), v, q);
    RemovingFinalizer(v, q, s.config.stored.config, s.config.epoch);
    var kro := Bumped(v, v.kros[KEY].(finalizer := false));
    var u := Tick(v.(kros := v.kros - {KEY}));
    var r := Drive(t, GotKro(kro), NOTHING, u, AfterRemoveFinalizer(q, GotKro(kro)));
    assert forall d <- TraceOf(s, KEY) :: d in TraceOf(r, KEY);
    assert forall i: nat :: Removed(s, i) ==> Removed(r, i);
    s := r;
    hide RevokeRequests, Ground, AfterRemoveFinalizer, Phases.TakesDown, Guards.AccessLost;
  }

  // ---------- a lost update ----------

  /** A pass that does nothing but wait for access: afterwards the Kro is on a timer, and nowhere else. */
  lemma WaitForAccess() returns (s: System)
    ensures Reachable(s) && Configured(s) && KEY !in s.passes && KEY !in s.queue.ready && KEY !in s.queue.retry
    ensures KEY in s.world.kros && s.world.kros[KEY].op == NoOperation
    ensures KEY in s.queue.used && s.queue.used[KEY] <= s.config.epoch
  {
    hide Reachable, Leads, Wakeups.PassScheduled, Coherent;
    s := AskForAccess();
    s := Begin(s);
    s := ReachFinalizer(s);
    var w, p := s.world, s.passes[KEY];
    AskingForAccess(w, p, s.config.stored.config, s.config.epoch, NOTHING);
    NothingToMake(w, KEY);
    s := Drive(s, Delay(1), NOTHING, w, p.(delay := 1, pc := Done(Outcome(1, false))));
    s := End(s, 1, p.epoch.value);
    Wakeups.ReachableIsScheduled(s, KEY);
  }

  /**
   "A config change always reaches every Kro" is false: here the list of Kros could not be read, and a Kro that is
   to be reconciled is neither pending nor in flight, and was last completed under another config.
   */
  lemma UpdateIsLost() returns (s: System)
    ensures Reachable(s) && Wakeups.Wanted(s.world, KEY) && !Wakeups.Covered(s, KEY)
    ensures KEY in s.queue.used && s.queue.used[KEY] < s.config.epoch && s.config.stored.config != Some(CONFIG)
  {
    hide Reachable;
    s := WaitForAccess();
    s := Take(s, ConfigChanges(LiveConfig.Present(ProviderConfig([], None), false)));
    s := Take(s, ConfigObserved(true));
    s := Take(s, ConfigSent);
    s := Take(s, ConfigReceived);
    s := Take(s, KrosListed(false));
  }
}
