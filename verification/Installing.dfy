/**
 One create pass that nobody disturbs, from its first call to its report, in any state in which it has all
 that it needs: a part of the example runs.
 */
module Installing {
  import opened Wrappers
  import opened Resources
  import opened Flux
  import opened Passes
  import opened Worlds
  import opened Operator
  import opened Coherence
  import opened Playbook
  import Reports
  import Statuses
  import Versions

  const KEY := Key("kro", "project")
  const MCP_REQUEST := RequestRef(KEY, MCP)
  const WORKLOAD_REQUEST := RequestRef(KEY, Workload)
  const MCP_SECRET := "mcp"
  const WORKLOAD_SECRET := "workload"
  const ACCESS := ClusterContext(true, MCP_SECRET, true, WORKLOAD_SECRET)

  /** Where the kubeconfig of the control plane comes from. */
  const SOURCE := SecretRef(PlatformHost, Tenant(KEY), MCP_SECRET)

  // ---------- making steps ----------

  lemma Take(s: System, a: Action) returns (t: System)
    requires Reachable(s) && Enabled(s, a)
    ensures s.config.history != [] && t == Apply(s, a) && Reachable(t)
  {
    hide Reachable, Apply, Enabled, Coherent;
    ReachableIsCoherent(s);
    CoherentHistory(s.config);
    Extend(s, a);
    t := Apply(s, a);
  }

  /** The pass makes its call. */
  lemma Drive(s: System, a: Answer, h: Hidden, v: World, q: Pass) returns (t: System)
    requires Reachable(s) && KEY in s.passes
    requires Leads(s.world, s.passes[KEY], s.config.stored.config, s.config.epoch, a, h, v, q)
    ensures Reachable(t) && t == s.(world := v, passes := t.passes, traces := t.traces, queue := t.queue)
    ensures KEY in t.passes && t.passes == s.passes[KEY := q]
    ensures TraceOf(t, KEY) == TraceOf(s, KEY) + [Call(s.passes[KEY].pc, a)]
    ensures t.queue == s.queue.(ready := t.queue.ready) && s.queue.ready <= t.queue.ready
    ensures v.kros == s.world.kros ==> t.queue == s.queue
  {
    hide Reachable, Lawful, Effect, Passes.Step;
    t := Take(s, PassCalls(KEY, a, h));
    if v.kros == s.world.kros {
      assert t.queue.ready == s.queue.ready;
    }
  }

  /** Somebody else moves. */
  lemma Wait(s: System, e: Env) returns (t: System)
    requires Reachable(s) && Permitted(s.world, e)
    ensures Reachable(t) && t == s.(world := Act(s.world, e), queue := t.queue)
    ensures t.queue == s.queue.(ready := t.queue.ready) && s.queue.ready <= t.queue.ready
    ensures KroAt(s.world, KEY) != KroAt(t.world, KEY) ==> KEY in t.queue.ready
    ensures t.world.kros == s.world.kros ==> t.queue == s.queue
  {
    hide Reachable, Permitted, Act;
    t := Take(s, Environment(e));
    if t.world.kros == s.world.kros {
      assert t.queue.ready == s.queue.ready;
    }
  }

  // ---------- a create pass ----------

  /** The Kro has the finalizer, and access with all that it needs. */
  ghost predicate Ground(w: World) {
    && KEY in w.kros && w.kros[KEY].op == NoOperation && w.kros[KEY].finalizer && !w.kros[KEY].foreign
    && MCP_REQUEST in w.requests && WORKLOAD_REQUEST in w.requests
    && w.requests[MCP_REQUEST] == AccessRequest(false, true, Some(MCP_SECRET))
    && w.requests[WORKLOAD_REQUEST] == AccessRequest(false, true, Some(WORKLOAD_SECRET))
    && SOURCE in w.secrets && KUBECONFIG_KEY in w.secrets[SOURCE].data
  }

  /** A pass has just started. */
  ghost predicate Starting(s: System) {
    && s.needsWorkload && s.config.stored.config.Some?
    && KEY in s.passes && s.passes[KEY] == StartPass(KEY, s.passes[KEY].now, true) && TraceOf(s, KEY) == []
  }

  /** Between two calls that leave the stores alone. */
  ghost predicate Idle(s: System, t: System) {
    t == s.(passes := t.passes, traces := t.traces)
  }

  lemma ReachFinalizer(s: System) returns (t: System)
    requires Reachable(s) && Starting(s)
    requires KEY in s.world.kros && s.world.kros[KEY].op == NoOperation && !s.world.kros[KEY].deleting
    ensures Reachable(t) && Idle(s, t) && KEY in t.passes
    ensures var kro := s.world.kros[KEY]; var p := s.passes[KEY];
      t.passes[KEY] == p.(obj := kro.(finalizer := true), snapshot := kro.status, config := s.config.stored.config,
        epoch := Some(s.config.epoch), mode := Creating,
        pc := if kro.finalizer then ReconcileAccess else UpdateFinalizer)
  {
    hide Reachable, Leads;
    var w, c, n := s.world, s.config.stored.config, s.config.epoch;
    var p := s.passes[KEY];
    Reading(w, p, c, n);
    var q := p.(obj := w.kros[KEY], snapshot := w.kros[KEY].status, pc := LoadConfig);
    t := Drive(s, GotKro(w.kros[KEY]), NOTHING, w, q);
    Loading(w, q, c, n);
    var r := q.(config := c, epoch := Some(n), mode := Creating, pc := GetForFinalizer);
    t := Drive(t, Loaded(c, n), NOTHING, w, r);
    FindingFinalizer(w, r, c, n);
    t := Drive(t, GotKro(w.kros[KEY]), NOTHING, w, r.(obj := w.kros[KEY].(finalizer := true),
      pc := if w.kros[KEY].finalizer then ReconcileAccess else UpdateFinalizer));
  }

  /** The pass has everything and is about to resolve the namespace. */
  ghost predicate Equipped(s: System) {
    && KEY in s.passes
    && var p := s.passes[KEY];
       && p.key == KEY && p.needsWorkload && p.mode == Creating && p.pc.ResolveNamespace? && p.ctx == ACCESS
       && p.got == map[] && p.config == s.config.stored.config && p.epoch.Some?
       && KEY in s.world.kros && p.obj.version == s.world.kros[KEY].version
  }

  lemma GainAccess(s: System) returns (t: System)
    requires Reachable(s) && KEY in s.passes && Ground(s.world)
    requires var p := s.passes[KEY]; p.key == KEY && p.needsWorkload && p.mode == Creating && p.pc.ReconcileAccess?
    ensures Reachable(t) && Idle(s, t) && KEY in t.passes
    ensures t.passes[KEY] == Started(s.passes[KEY].(delay := 0, ctx := ACCESS))
  {
    hide Reachable, Leads;
    var w, c, n := s.world, s.config.stored.config, s.config.epoch;
    var p := s.passes[KEY];
    GettingAccess(w, p, c, n);
    var q := p.(delay := 0, pc := GetCluster(MCP));
    t := Drive(s, Delay(0), NOTHING, w, q);
    GettingMCP(w, q, c, n);
    q := q.(ctx := q.ctx.(mcp := true), pc := GetRequest(MCP));
    t := Drive(t, GotCluster(true), NOTHING, w, q);
    GettingMCPSecret(w, q, c, n);
    q := q.(ctx := q.ctx.(mcpSecret := MCP_SECRET), pc := GetCluster(Workload));
    t := Drive(t, GotRequest(w.requests[MCP_REQUEST]), NOTHING, w, q);
    GettingWorkload(w, q, c, n);
    q := q.(ctx := q.ctx.(workload := true), pc := GetRequest(Workload));
    t := Drive(t, GotCluster(true), NOTHING, w, q);
    GettingWorkloadSecret(w, q, c, n);
    q := Started(q.(ctx := q.ctx.(workloadSecret := WORKLOAD_SECRET)));
    t := Drive(t, GotRequest(w.requests[WORKLOAD_REQUEST]), NOTHING, w, q);
  }

  // ---------- the plan ----------

  const PLAN: seq<Task> := [PutFlux(Oci), ReadKubeconfig(SOURCE), PutNamespace, PutSecret(KubeconfigTarget(KEY)),
    PutFlux(Crds), ReadWorkloadRequest, PutFlux(Main)]

  /** A version that needs no secrets. */
  predicate Plain(v: KroVersion) { v.chartPullSecret == "" && v.helmValues.None? }

  lemma PlanOfPlain(v: KroVersion)
    requires Plain(v)
    ensures Plan(KEY, v, ACCESS) == PLAN
  {
  }

  function Ref(which: Which): FluxRef { RefOf(which, Tenant(KEY)) }

  function Wish(v: KroVersion, which: Which): FluxSpec {
    match which
    case Oci => OciRepositorySpec(v)
    case Main => MainReleaseSpec(Tenant(KEY), v.helmValues, WORKLOAD_SECRET)
    case Crds => CrdsReleaseSpec(Tenant(KEY), MCP_SECRET)
  }

  /** What becomes of an object, but for its resource version. */
  function Becomes(w: World, v: KroVersion, which: Which): FluxObject {
    if Ref(which) in w.flux then Respecified(w.flux[Ref(which)], Wish(v, which), 0)
    else FluxObject(Wish(v, which), 1, 0, false, false, [])
  }

  ghost predicate Settled(w0: World, w: World, v: KroVersion, which: Which) {
    Ref(which) in w.flux && w.flux[Ref(which)] == Becomes(w0, v, which).(rv := w.flux[Ref(which)].rv)
  }

  ghost predicate Unsettled(w0: World, w: World, which: Which) {
    && (Ref(which) in w.flux <==> Ref(which) in w0.flux)
    && (Ref(which) in w.flux ==> w.flux[Ref(which)] == w0.flux[Ref(which)])
  }

  /** From `w0` to `w`, the objects in `done` were brought up to `v`, and perhaps secrets were copied. */
  ghost predicate Advanced(w0: World, w: World, v: KroVersion, done: set<Which>) {
    && w.kros == w0.kros && w.requests == w0.requests && w.rgds == w0.rgds
    && (Ground(w0) ==> Ground(w))
    && forall which :: if which in done then Settled(w0, w, v, which) else Unsettled(w0, w, which)
  }

  ghost predicate Registers(s: System, v: KroVersion) {
    && KEY in s.passes
    && var p := s.passes[KEY];
       && p.key == KEY && p.needsWorkload && p.mode == Creating && p.version == v && p.ctx == ACCESS
       && p.config == s.config.stored.config && p.epoch.Some?
       && (forall which <- p.got :: Ref(which) in s.world.flux && p.got[which] == s.world.flux[Ref(which)].conditions)
       && Reports.HasEntered(TraceOf(s, KEY))
  }

  /** A pass that began in `w0` has dealt with the objects in `done` and is about to deal with `todo`. */
  ghost predicate Midway(w0: World, s: System, v: KroVersion, todo: seq<Task>, done: set<Which>) {
    && todo != [] && Registers(s, v) && Advanced(w0, s.world, v, done)
    && var p := s.passes[KEY];
       && p.pc == Look(todo[0], todo[1..]) && p.got.Keys == done
       && (ReadWorkloadRequest !in todo ==> p.fluxSecret == WORKLOAD_SECRET)
  }

  lemma BeginPlan(s: System, v: KroVersion) returns (t: System)
    requires Reachable(s) && Equipped(s) && Ground(s.world) && Plain(v)
    requires Versions.Resolve(s.config.stored.config, s.world.kros[KEY].version) == Success(v)
    ensures Reachable(t) && Idle(s, t) && Midway(s.world, t, v, PLAN, {})
    ensures t.passes[KEY].obj == s.passes[KEY].obj && t.passes[KEY].now == s.passes[KEY].now
  {
    hide Reachable, Leads, Ground, Versions.Resolve, Plan;
    var p := s.passes[KEY];
    PlanOfPlain(v);
    Resolving(s.world, p, s.config.stored.config, s.config.epoch, v);
    t := Drive(s, Ok, NOTHING, s.world, p.(version := v, pc := Look(PLAN[0], PLAN[1..])));
    Reports.AppendKeepsEntered(TraceOf(s, KEY), Call(p.pc, Ok));
    hide Reports.HasEntered;
  }

  /** The pass makes a call of the plan. */
  lemma Proceed(s: System, a: Answer, v: World, q: Pass) returns (t: System)
    requires Reachable(s) && KEY in s.passes && Reports.HasEntered(TraceOf(s, KEY))
    requires Leads(s.world, s.passes[KEY], s.config.stored.config, s.config.epoch, a, NOTHING, v, q)
    requires v.kros == s.world.kros
    ensures Reachable(t) && t == s.(world := v, passes := s.passes[KEY := q], traces := t.traces)
    ensures Reports.HasEntered(TraceOf(t, KEY))
  {
    hide Reachable, Leads;
    t := Drive(s, a, NOTHING, v, q);
    Reports.AppendKeepsEntered(TraceOf(s, KEY), Call(s.passes[KEY].pc, a));
    hide Reports.HasEntered;
  }

  /** The pass sees to an object: it is left alone if it is as it should be, and written otherwise. */
  lemma DealFlux(s: System, which: Which, rest: seq<Task>) returns (t: System, q: Pass)
    requires Reachable(s) && KEY in s.passes && Reports.HasEntered(TraceOf(s, KEY))
    requires s.passes[KEY].pc == Look(PutFlux(which), rest) && s.passes[KEY].key == KEY
    ensures Reachable(t) && Reports.HasEntered(TraceOf(t, KEY))
    ensures t == s.(world := t.world, passes := t.passes, traces := t.traces) && KEY in t.passes
    ensures var p, w := s.passes[KEY], s.world;
      && q == p.(pc := q.pc)
      && t.world == (if Ref(which) in w.flux && w.flux[Ref(which)].spec == Desired(p, which) then w
                     else StoredFlux(w, p, which))
      && Ref(which) in t.world.flux
      && t.passes == s.passes[KEY := Continue(q.(got := p.got[which := t.world.flux[Ref(which)].conditions]), rest)]
  {
    hide Reachable, Leads, Continue, Desired, Reports.HasEntered, Written;
    var w, p := s.world, s.passes[KEY];
    q := p;
    if Ref(which) in w.flux && w.flux[Ref(which)].spec == Desired(p, which) {
      FindingFlux(w, p, s.config.stored.config, s.config.epoch, which, rest);
      var o := w.flux[Ref(which)];
      t := Proceed(s, GotFlux(o), w, Continue(p.(got := p.got[which := o.conditions]), rest));
    } else {
      t, q := WriteFlux(s, which, rest);
    }
  }

  lemma WriteFlux(s: System, which: Which, rest: seq<Task>) returns (t: System, q: Pass)
    requires Reachable(s) && KEY in s.passes && Reports.HasEntered(TraceOf(s, KEY))
    requires s.passes[KEY].pc == Look(PutFlux(which), rest) && s.passes[KEY].key == KEY
    requires Ref(which) in s.world.flux ==> s.world.flux[Ref(which)].spec != Desired(s.passes[KEY], which)
    ensures Reachable(t) && Reports.HasEntered(TraceOf(t, KEY))
    ensures var p, w := s.passes[KEY], s.world; var o := Written(w, p, which);
      && q == p.(pc := q.pc)
      && t == s.(world := StoredFlux(w, p, which), traces := t.traces,
                 passes := s.passes[KEY := Continue(q.(got := p.got[which := o.conditions]), rest)])
  {
    hide Reachable, Leads, Continue, Desired, Reports.HasEntered, Written;
    var w, c, n := s.world, s.config.stored.config, s.config.epoch;
    var p := s.passes[KEY];
    MissingFlux(w, p, c, n, which, rest);
    var a, seen := if Ref(which) in w.flux then GotFlux(w.flux[Ref(which)]) else NotFound,
      if Ref(which) in w.flux then Some(w.flux[Ref(which)].rv) else None;
    q := p.(pc := Write(PutFlux(which), rest, seen));
    t := Proceed(s, a, w, q);
    PcIsNotWritten(w, p, q, which);
    WritingFlux(w, q, c, n, which, rest, seen);
    var o := Written(w, q, which);
    t := Proceed(t, GotFlux(o), StoredFlux(w, q, which), Continue(q.(got := p.got[which := o.conditions]), rest));
  }

  lemma PcIsNotWritten(w: World, p: Pass, q: Pass, which: Which)
    requires q == p.(pc := q.pc)
    ensures Written(w, q, which) == Written(w, p, which) && Desired(q, which) == Desired(p, which)
  {
  }

  lemma StoringSettles(w0: World, w: World, p: Pass, v: KroVersion, which: Which, done: set<Which>)
    requires Advanced(w0, w, v, done) && which !in done && p.key == KEY && Desired(p, which) == Wish(v, which)
    ensures var u := if Ref(which) in w.flux && w.flux[Ref(which)].spec == Desired(p, which) then w
        else StoredFlux(w, p, which);
      Advanced(w0, u, v, done + {which})
  {
    hide Desired, Wish, Ground;
    KeepsGround(w, StoredFlux(w, p, which));
    RefsDiffer();
    var u := if Ref(which) in w.flux && w.flux[Ref(which)].spec == Desired(p, which) then w
      else StoredFlux(w, p, which);
    forall other ensures if other in done + {which} then Settled(w0, u, v, other) else Unsettled(w0, u, other) {
      assert if other in done then Settled(w0, w, v, other) else Unsettled(w0, w, other);
    }
  }

  lemma RefsDiffer()
    ensures forall i, j :: i != j ==> Ref(i) != Ref(j)
  {
    assert |HELM_RELEASE_NAME| != |MCP_HELM_RELEASE_NAME|;
  }

  lemma KeepsGround(w: World, v: World)
    requires v.kros == w.kros && v.requests == w.requests && (SOURCE in w.secrets ==> SOURCE in v.secrets)
    requires SOURCE in w.secrets ==> v.secrets[SOURCE] == w.secrets[SOURCE]
    ensures Ground(w) ==> Ground(v)
  {
  }

  lemma PutFluxNext(w0: World, s: System, v: KroVersion, which: Which, rest: seq<Task>, done: set<Which>)
    returns (t: System)
    requires Reachable(s) && Midway(w0, s, v, [PutFlux(which)] + rest, done)
    requires which !in done && rest != [] && which != Main
    ensures Reachable(t) && t == s.(world := t.world, passes := t.passes, traces := t.traces)
    ensures Midway(w0, t, v, rest, done + {which}) && t.passes[KEY].obj == s.passes[KEY].obj
  {
    hide Reachable, Reports.HasEntered, Advanced, Ground, Continue, StoredFlux, Desired;
    var p := s.passes[KEY];
    var q: Pass;
    t, q := DealFlux(s, which, rest);
    OthersAreWished(p, v, which);
    StoringSettles(w0, s.world, p, v, which, done);
    OthersKeepConditions(s.world, p, which);
    GoingOn(w0, s, t, v, which, rest, done, q);
  }

  lemma OthersAreWished(p: Pass, v: KroVersion, which: Which)
    requires p.key == KEY && p.version == v && p.ctx == ACCESS && which != Main
    ensures Desired(p, which) == Wish(v, which)
  {
  }

  lemma GoingOn(w0: World, s: System, t: System, v: KroVersion, which: Which, rest: seq<Task>, done: set<Which>,
      q: Pass)
    requires Registers(s, v) && Advanced(w0, t.world, v, done + {which}) && t.config == s.config && rest != []
    requires Reports.HasEntered(TraceOf(t, KEY)) && Ref(which) in t.world.flux
    requires s.passes[KEY].got.Keys == done && q == s.passes[KEY].(pc := q.pc) && KEY in t.passes
    requires ReadWorkloadRequest !in rest ==> s.passes[KEY].fluxSecret == WORKLOAD_SECRET
    requires forall other :: other != which && Ref(other) in s.world.flux ==>
      Ref(other) in t.world.flux && t.world.flux[Ref(other)].conditions == s.world.flux[Ref(other)].conditions
    requires t.passes[KEY] == Continue(q.(got := q.got[which := t.world.flux[Ref(which)].conditions]), rest)
    ensures Midway(w0, t, v, rest, done + {which}) && t.passes[KEY].obj == s.passes[KEY].obj
  {
    hide Reports.HasEntered, Advanced, Statuses.Agrees, AllReady, Conclude;
  }

  /** Storing an object leaves the conditions of all objects as they were. */
  lemma OthersKeepConditions(w: World, p: Pass, which: Which)
    requires p.key == KEY
    ensures var u := StoredFlux(w, p, which);
      forall other :: other != which && Ref(other) in w.flux ==>
        Ref(other) in u.flux && u.flux[Ref(other)].conditions == w.flux[Ref(other)].conditions
  {
    RefsDiffer();
    hide Desired;
  }

  /** From one state to the next, secrets and namespaces may have come, and nothing else has changed. */
  ghost predicate Copied(w: World, u: World) {
    && u == w.(secrets := u.secrets, replicas := u.replicas, namespaces := u.namespaces)
    && (SOURCE in w.secrets ==> SOURCE in u.secrets && u.secrets[SOURCE] == w.secrets[SOURCE])
  }

  /** A task that copies something is done with. */
  lemma Copying(w0: World, s: System, t: System, v: KroVersion, task: Task, rest: seq<Task>, done: set<Which>)
    requires Midway(w0, s, v, [task] + rest, done) && rest != []
    requires t == s.(world := t.world, passes := t.passes, traces := t.traces) && Copied(s.world, t.world)
    requires Reports.HasEntered(TraceOf(t, KEY)) && KEY in t.passes
    requires var p, q := s.passes[KEY], t.passes[KEY];
      && q == p.(pc := Look(rest[0], rest[1..]), carry := q.carry, fluxSecret := q.fluxSecret)
      && (task == ReadWorkloadRequest ==> q.fluxSecret == WORKLOAD_SECRET)
      && (task != ReadWorkloadRequest ==> q.fluxSecret == p.fluxSecret)
    ensures Midway(w0, t, v, rest, done)
  {
    hide Reports.HasEntered, Becomes, Ground;
    KeepsGround(s.world, t.world);
    assert forall x :: x in rest ==> x in [task] + rest;
    assert ([task] + rest)[1..] == rest;
  }

  lemma ReadKubeconfigNext(w0: World, s: System, v: KroVersion, rest: seq<Task>, done: set<Which>) returns (t: System)
    requires Reachable(s) && Midway(w0, s, v, [ReadKubeconfig(SOURCE)] + rest, done) && rest != [] && Ground(s.world)
    ensures Reachable(t) && t == s.(world := t.world, passes := t.passes, traces := t.traces)
    ensures Midway(w0, t, v, rest, done) && t.passes[KEY].obj == s.passes[KEY].obj
  {
    hide Reachable, Reports.HasEntered, Leads, Advanced, Midway;
    MidwayIsAt(w0, s, v, [ReadKubeconfig(SOURCE)] + rest, done);
    var w, p := s.world, s.passes[KEY];
    ReadingKubeconfig(w, p, s.config.stored.config, s.config.epoch, SOURCE, rest);
    t := Proceed(s, GotSecret(w.secrets[SOURCE]), w, Continue(p.(carry := Projected(w.secrets[SOURCE])), rest));
    Copying(w0, s, t, v, ReadKubeconfig(SOURCE), rest, done);
  }

  lemma MidwayIsAt(w0: World, s: System, v: KroVersion, todo: seq<Task>, done: set<Which>)
    requires Midway(w0, s, v, todo, done)
    ensures KEY in s.passes && s.passes[KEY].key == KEY && s.passes[KEY].pc == Look(todo[0], todo[1..])
    ensures Reports.HasEntered(TraceOf(s, KEY)) && (Ground(w0) ==> Ground(s.world))
  {
  }

  lemma PutNamespaceNext(w0: World, s: System, v: KroVersion, rest: seq<Task>, done: set<Which>) returns (t: System)
    requires Reachable(s) && Midway(w0, s, v, [PutNamespace] + rest, done) && rest != []
    ensures Reachable(t) && t == s.(world := t.world, passes := t.passes, traces := t.traces)
    ensures Midway(w0, t, v, rest, done) && t.passes[KEY].obj == s.passes[KEY].obj
  {
    hide Reachable, Reports.HasEntered, Leads, Advanced, Midway, Ground;
    MidwayIsAt(w0, s, v, [PutNamespace] + rest, done);
    var w, p := s.world, s.passes[KEY];
    MissingNamespace(w, p, s.config.stored.config, s.config.epoch, rest);
    if Home(w, KEY) in w.namespaces {
      t := Proceed(s, Ok, w, Continue(p, rest));
    } else {
      var q := p.(pc := Write(PutNamespace, rest, None));
      t := Proceed(s, NotFound, w, q);
      WritingNamespace(w, q, s.config.stored.config, s.config.epoch, rest);
      t := Proceed(t, Ok, w.(namespaces := w.namespaces + {Home(w, KEY)}), Continue(q, rest));
    }
    Copying(w0, s, t, v, PutNamespace, rest, done);
  }

  lemma PutKubeconfigNext(w0: World, s: System, v: KroVersion, rest: seq<Task>, done: set<Which>) returns (t: System)
    requires Reachable(s) && Midway(w0, s, v, [PutSecret(KubeconfigTarget(KEY))] + rest, done) && rest != []
    ensures Reachable(t) && t == s.(world := t.world, passes := t.passes, traces := t.traces)
    ensures Midway(w0, t, v, rest, done) && t.passes[KEY].obj == s.passes[KEY].obj
  {
    hide Reachable, Reports.HasEntered, Leads, Advanced, Midway, Ground;
    var target := KubeconfigTarget(KEY);
    MidwayIsAt(w0, s, v, [PutSecret(target)] + rest, done);
    var w, p, c, n := s.world, s.passes[KEY], s.config.stored.config, s.config.epoch;
    var place := Place(w, target);
    MissingSecret(w, p, c, n, target, rest);
    if place in w.secrets && w.secrets[place] == p.carry {
      t := Proceed(s, GotSecret(p.carry), w.(replicas := w.replicas + {place}), Continue(p, rest));
    } else {
      t := WriteKubeconfig(s, rest);
    }
    Copying(w0, s, t, v, PutSecret(target), rest, done);
  }

  lemma WriteKubeconfig(s: System, rest: seq<Task>) returns (t: System)
    requires Reachable(s) && KEY in s.passes && Reports.HasEntered(TraceOf(s, KEY)) && rest != []
    requires var p, place := s.passes[KEY], Place(s.world, KubeconfigTarget(KEY));
      && p.pc == Look(PutSecret(KubeconfigTarget(KEY)), rest)
      && (place in s.world.secrets ==> s.world.secrets[place] != p.carry)
    ensures Reachable(t) && Reports.HasEntered(TraceOf(t, KEY))
    ensures var w, p, place := s.world, s.passes[KEY], Place(s.world, KubeconfigTarget(KEY));
      t == s.(world := w.(secrets := w.secrets[place := p.carry], replicas := w.replicas + {place}),
              passes := s.passes[KEY := p.(pc := Look(rest[0], rest[1..]))], traces := t.traces)
  {
    hide Reachable, Reports.HasEntered, Leads;
    var target := KubeconfigTarget(KEY);
    var w, p, c, n := s.world, s.passes[KEY], s.config.stored.config, s.config.epoch;
    var place := Place(w, target);
    MissingSecret(w, p, c, n, target, rest);
    var q := p.(pc := Write(PutSecret(target), rest, None));
    t := Proceed(s, if place in w.secrets then GotSecret(w.secrets[place]) else NotFound, w, q);
    WritingSecret(w, q, c, n, target, rest);
    t := Proceed(t, Ok, w.(secrets := w.secrets[place := p.carry], replicas := w.replicas + {place}),
      Continue(q, rest));
  }

  lemma ReadRequestNext(w0: World, s: System, v: KroVersion, rest: seq<Task>, done: set<Which>) returns (t: System)
    requires Reachable(s) && Midway(w0, s, v, [ReadWorkloadRequest] + rest, done) && rest != [] && Ground(s.world)
    ensures Reachable(t) && t == s.(world := t.world, passes := t.passes, traces := t.traces)
    ensures Midway(w0, t, v, rest, done) && t.passes[KEY].obj == s.passes[KEY].obj
  {
    hide Reachable, Reports.HasEntered, Leads, Advanced, Midway;
    MidwayIsAt(w0, s, v, [ReadWorkloadRequest] + rest, done);
    var w, p := s.world, s.passes[KEY];
    ReadingWorkloadRequest(w, p, s.config.stored.config, s.config.epoch, rest);
    t := Proceed(s, GotRequest(w.requests[WORKLOAD_REQUEST]), w, Continue(p.(fluxSecret := WORKLOAD_SECRET), rest));
    Copying(w0, s, t, v, ReadWorkloadRequest, rest, done);
  }

  /** A create pass that began in `w0` has brought all objects up to `v` and is over but for its report. */
  ghost predicate Finished(w0: World, s: System, v: KroVersion) {
    && Advanced(w0, s.world, v, {Oci, Main, Crds}) && KEY in s.passes && Reports.HasEntered(TraceOf(s, KEY))
    && var p := s.passes[KEY];
       && p.key == KEY && p.mode == Creating && Succeeds(p) && p.version == v && p.ctx == ACCESS
       && p.fluxSecret == WORKLOAD_SECRET && p.config == s.config.stored.config && p.epoch.Some?
       && (forall which :: Ref(which) in s.world.flux
             && which in p.got && p.got[which] == s.world.flux[Ref(which)].conditions)
       && Shows(p, if AllReady(p) then Ready else Progressing)
  }

  lemma PutMain(w0: World, s: System, v: KroVersion) returns (t: System)
    requires Reachable(s) && Midway(w0, s, v, [PutFlux(Main)], {Oci, Crds})
    ensures Reachable(t) && t == s.(world := t.world, passes := t.passes, traces := t.traces)
    ensures Finished(w0, t, v)
  {
    hide Reachable, Reports.HasEntered, Advanced, Ground, Finished, Continue, StoredFlux, Desired;
    var p := s.passes[KEY];
    var q: Pass;
    t, q := DealFlux(s, Main, []);
    DesiredIsWish(p, v);
    StoringSettles(w0, s.world, p, v, Main, {Oci, Crds});
    OthersKeepConditions(s.world, p, Main);
    Finishing(w0, s, t, v, q);
  }

  lemma DesiredIsWish(p: Pass, v: KroVersion)
    requires p.key == KEY && p.version == v && p.ctx == ACCESS && p.fluxSecret == WORKLOAD_SECRET
    ensures forall which :: Desired(p, which) == Wish(v, which)
  {
  }

  lemma Finishing(w0: World, s: System, t: System, v: KroVersion, q: Pass)
    requires Registers(s, v) && Advanced(w0, t.world, v, {Oci, Crds} + {Main}) && t.config == s.config
    requires Reports.HasEntered(TraceOf(t, KEY)) && Ref(Main) in t.world.flux
    requires s.passes[KEY].got.Keys == {Oci, Crds} && s.passes[KEY].fluxSecret == WORKLOAD_SECRET
    requires forall other :: other != Main && Ref(other) in s.world.flux ==>
      Ref(other) in t.world.flux && t.world.flux[Ref(other)].conditions == s.world.flux[Ref(other)].conditions
    requires q == s.passes[KEY].(pc := q.pc) && KEY in t.passes
    requires t.passes[KEY] == Continue(q.(got := q.got[Main := t.world.flux[Ref(Main)].conditions]), [])
    ensures Finished(w0, t, v)
  {
    hide Reports.HasEntered, Advanced, Continue, Statuses.Agrees, AllReady;
    var p, r := s.passes[KEY], t.passes[KEY];
    assert {Oci, Crds} + {Main} == {Oci, Main, Crds};
    assert r.got == p.got[Main := t.world.flux[Ref(Main)].conditions];
    forall which: Which ensures Ref(which) in t.world.flux
      && which in r.got && r.got[which] == t.world.flux[Ref(which)].conditions
    {
      match which case Oci => case Main => case Crds =>
    }
  }

  /** The chart source and the secrets come first, and then the releases. */
  const RELEASES_TO_GO: seq<Task> := [PutFlux(Crds), ReadWorkloadRequest, PutFlux(Main)]

  lemma InstallSource(s: System, v: KroVersion) returns (t: System)
    requires Reachable(s) && Equipped(s) && Ground(s.world) && Plain(v)
    requires Versions.Resolve(s.config.stored.config, s.world.kros[KEY].version) == Success(v)
    ensures Reachable(t) && t == s.(world := t.world, passes := t.passes, traces := t.traces)
    ensures Midway(s.world, t, v, RELEASES_TO_GO, {Oci}) && Ground(t.world)
  {
    hide Reachable, Equipped, Ground, Midway, Versions.Resolve, Plain, Advanced, Reports.HasEntered;
    var w := s.world;
    t := BeginPlan(s, v);
    var put := [PutSecret(KubeconfigTarget(KEY))] + RELEASES_TO_GO;
    assert PLAN == [PutFlux(Oci)] + ([ReadKubeconfig(SOURCE)] + ([PutNamespace] + put));
    t := PutFluxNext(w, t, v, Oci, [ReadKubeconfig(SOURCE)] + ([PutNamespace] + put), {});
    assert {} + {Oci} == {Oci};
    MidwayIsAt(w, t, v, [ReadKubeconfig(SOURCE)] + ([PutNamespace] + put), {Oci});
    t := ReadKubeconfigNext(w, t, v, [PutNamespace] + put, {Oci});
    t := PutNamespaceNext(w, t, v, put, {Oci});
    t := PutKubeconfigNext(w, t, v, RELEASES_TO_GO, {Oci});
    MidwayIsAt(w, t, v, RELEASES_TO_GO, {Oci});
  }

  lemma InstallReleases(w0: World, s: System, v: KroVersion) returns (t: System)
    requires Reachable(s) && Midway(w0, s, v, RELEASES_TO_GO, {Oci}) && Ground(w0)
    ensures Reachable(t) && t == s.(world := t.world, passes := t.passes, traces := t.traces)
    ensures Finished(w0, t, v)
  {
    hide Reachable, Ground, Midway, Finished, Advanced, Reports.HasEntered;
    assert RELEASES_TO_GO == [PutFlux(Crds)] + ([ReadWorkloadRequest] + [PutFlux(Main)]);
    t := PutFluxNext(w0, s, v, Crds, [ReadWorkloadRequest] + [PutFlux(Main)], {Oci});
    assert {Oci} + {Crds} == {Oci, Crds};
    MidwayIsAt(w0, t, v, [ReadWorkloadRequest] + [PutFlux(Main)], {Oci, Crds});
    t := ReadRequestNext(w0, t, v, [PutFlux(Main)], {Oci, Crds});
    t := PutMain(w0, t, v);
  }

  /** With access to everything it needs, a pass that nobody disturbs installs the version asked for. */
  lemma Install(s: System, v: KroVersion) returns (t: System)
    requires Reachable(s) && Equipped(s) && Ground(s.world) && Plain(v)
    requires Versions.Resolve(s.config.stored.config, s.world.kros[KEY].version) == Success(v)
    ensures Reachable(t) && t == s.(world := t.world, passes := t.passes, traces := t.traces)
    ensures Finished(s.world, t, v) && Ground(t.world)
  {
    hide Reachable, Equipped, Ground, Midway, Finished, Versions.Resolve, Plain;
    t := InstallSource(s, v);
    t := InstallReleases(s.world, t, v);
    FinishedIsGrounded(s.world, t, v);
  }

  lemma FinishedIsGrounded(w0: World, s: System, v: KroVersion)
    requires Finished(w0, s, v) && Ground(w0)
    ensures Ground(s.world)
  {
  }
}
