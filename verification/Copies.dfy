/**
 What is replicated: a pull secret as it was read, type included, from the secret of the same name beside the
 operator; of the control plane's access secret the kubeconfig alone, as an opaque secret.
 */
module Copies {
  import opened Wrappers
  import opened Resources
  import opened Flux
  import opened Passes
  import opened Worlds
  import opened Operator
  import opened Traces
  import opened Integrity
  import Convergence
  import Safety
  import Statuses
  import Versions

  // ---------- reads in the plan, and reads in the trace ----------

  predicate Fetches(task: Task) { task.ReadSecret? || task.ReadKubeconfig? }

  /** The last secret that the tasks read. */
  function LastFetchIn(ts: seq<Task>): Option<Task> {
    if ts == [] then None
    else if Fetches(ts[|ts| - 1]) then Some(ts[|ts| - 1])
    else LastFetchIn(ts[..|ts| - 1])
  }

  /** The last call that read a secret to be copied. */
  function LastFetch(t: seq<Call>): Option<Call> {
    if t == [] then None
    else if t[|t| - 1].pc.Look? && Fetches(t[|t| - 1].pc.task) then Some(t[|t| - 1])
    else LastFetch(t[..|t| - 1])
  }

  /** `copy` is what is to become of what was read. */
  ghost predicate CopyOf(c: Call, copy: Secret) {
    && c.pc.Look? && c.answer.GotSecret?
    && match c.pc.task
       case ReadSecret(_) => copy == c.answer.secret
       case ReadKubeconfig(_) =>
         && "kubeconfig" in c.answer.secret.data
         && copy.kind == "Opaque" && copy.data == map["kubeconfig" := c.answer.secret.data["kubeconfig"]]
       case _ => false
  }

  /** The pass carries a copy of what the plan had it read last. */
  ghost predicate Carrying(p: Pass, t: seq<Call>) {
    && (!AtTask(p) && !Leaving(p) ==> LastFetch(t).None?)
    && (AtTask(p) ==>
          && Position(p) >= 0
          && match LastFetch(t)
             case None => LastFetchIn(PlanOf(p)[..Position(p)]).None?
             case Some(c) =>
               c.pc.Look? && LastFetchIn(PlanOf(p)[..Position(p)]) == Some(c.pc.task) && CopyOf(c, p.carry))
  }

  lemma AppendFetches(t: seq<Call>, c: Call)
    ensures LastFetch(t + [c]) == if c.pc.Look? && Fetches(c.pc.task) then Some(c) else LastFetch(t)
  {
    var u := t + [c];
    assert u[..|u| - 1] == t && u[|t|] == c;
  }

  lemma NextFetchIn(ts: seq<Task>, n: nat)
    requires n < |ts|
    ensures LastFetchIn(ts[..n + 1]) == if Fetches(ts[n]) then Some(ts[n]) else LastFetchIn(ts[..n])
  {
    assert ts[..n + 1][..n] == ts[..n];
  }

  lemma FetchingCarries(p: Pass, a: Answer)
    requires p.pc.Look? && Fetches(p.pc.task) && AtTask(Passes.Step(p, a))
    ensures CopyOf(Call(p.pc, a), Passes.Step(p, a).carry)
  {
    hide Conclude, FailProgressing, MovesOn, AfterPeek, AfterPeekFlux;
  }

  lemma OthersCarryOn(p: Pass, a: Answer)
    requires AtTask(p) && !Fetches(p.pc.task)
    ensures Passes.Step(p, a).carry == p.carry
  {
    hide AfterLook, AfterWrite, MovesOn, Desired, AllReady, Statuses.Agrees, Concluded;
  }

  lemma TasksCarry(p: Pass, t: seq<Call>, a: Answer)
    requires AtTask(p) && OnCourse(p) && Carrying(p, t) && (p.pc.Write? ==> Puts(p.pc.task))
    ensures Carrying(Passes.Step(p, a), t + [Call(p.pc, a)])
  {
    hide AfterLook, AfterWrite, Plan, Statuses.Agrees, AllReady, CopyOf, LastFetch, LastFetchIn, Concluded, Desired,
      MovesOn;
    var q := Passes.Step(p, a);
    AppendFetches(t, Call(p.pc, a));
    TaskIsAtPosition(p);
    if AtTask(q) {
      assert PlanOf(q) == PlanOf(p);
      NextFetchIn(PlanOf(p), Position(p));
      if Fetches(p.pc.task) { FetchingCarries(p, a); } else { OthersCarryOn(p, a); }
    }
  }

  lemma BeginningCarries(p: Pass, t: seq<Call>, a: Answer)
    requires p.pc.ResolveNamespace? && Carrying(p, t)
    ensures Carrying(AfterResolveNamespace(p, a), t + [Call(p.pc, a)])
  {
    hide BeginTeardown, BeginCreate, Fail, Plan, Statuses.Agrees, AllReady, LastFetch, CopyOf;
    AppendFetches(t, Call(p.pc, a));
    var q := AfterResolveNamespace(p, a);
    if q.pc.Look? { assert PlanOf(q)[..0] == []; }
  }

  lemma OthersCarry(p: Pass, t: seq<Call>, a: Answer)
    requires !AtTask(p) && !p.pc.ResolveNamespace? && Carrying(p, t)
    ensures Carrying(Passes.Step(p, a), t + [Call(p.pc, a)])
  {
    hide Passes.Step, LastFetch, LastFetchIn, CopyOf, Plan;
    AppendFetches(t, Call(p.pc, a));
  }

  lemma CallCarries(p: Pass, t: seq<Call>, a: Answer)
    requires OnCourse(p) && Carrying(p, t) && (p.pc.Write? ==> Puts(p.pc.task))
    ensures Carrying(Passes.Step(p, a), t + [Call(p.pc, a)])
  {
    hide Carrying, OnCourse, MovesOn;
    if AtTask(p) {
      hide Passes.Step;
      TasksCarry(p, t, a);
    } else if p.pc.ResolveNamespace? {
      BeginningCarries(p, t, a);
    } else {
      hide Passes.Step;
      OthersCarry(p, t, a);
    }
  }

  lemma FreshCarriesNothing(p: Pass)
    requires p == Fresh(p)
    ensures Carrying(p, [])
  {
  }

  lemma {:induction false} TracedCarries(p: Pass, t: seq<Call>)
    requires Traced(p, t)
    ensures Carrying(p, t)
    decreases |t|
  {
    hide Passes.Step, Carrying, OnCourse;
    if t == [] {
      FreshCarriesNothing(p);
    } else {
      var last := |t| - 1;
      var before := After(Fresh(p), t[..last]);
      TracedPrefix(p, t);
      TracedCarries(before, t[..last]);
      TracedIsOnCourse(before, t[..last]);
      CallCarries(before, t[..last], t[last].answer);
      assert t == t[..last] + [t[last]];
    }
  }

  lemma TracedIsOnCourse(p: Pass, t: seq<Call>)
    requires Traced(p, t)
    ensures OnCourse(p) && (p.pc.Write? ==> Puts(p.pc.task))
  {
    hide Traced, OnCourse, Convergence.NamedByMCP, Convergence.NamedByWorkload;
    Convergence.TracedFinishes(p, t);
    Convergence.TracedIsNamed(p, t);
  }

  // ---------- what the plan reads before it writes ----------

  /** Every secret is put right after the one of that name beside the operator has been read. */
  ghost predicate Paired(k: Key, names: seq<string>, ts: seq<Task>) {
    forall n :: 0 <= n < |ts| && ts[n].PutSecret? ==>
      && n > 0 && ts[n - 1] == ReadSecret(SecretRef(PlatformHost, PodNamespace, ts[n].target.name))
      && (ts[n].target.host == PlatformHost ==> ts[n].target.namespace == Tenant(k))
      && (ts[n].target.host != PlatformHost ==>
            ts[n].target.host == WorkloadHost(k) && ts[n].target.namespace == KroSystem && ts[n].target.name in names)
  }

  lemma JoiningIsPaired(k: Key, names: seq<string>, ts: seq<Task>, us: seq<Task>)
    requires Paired(k, names, ts) && Paired(k, names, us)
    ensures Paired(k, names, ts + us)
  {
    var vs := ts + us;
    forall n | 0 <= n < |vs| && vs[n].PutSecret?
      ensures n > 0 && vs[n - 1] == ReadSecret(SecretRef(PlatformHost, PodNamespace, vs[n].target.name))
    {
      if n >= |ts| { assert us[n - |ts|] == vs[n]; }
    }
  }

  lemma {:induction false} CopiesArePaired(k: Key, all: seq<string>, names: seq<string>)
    requires forall x <- names :: x in all
    ensures Paired(k, all, CopyImageSecrets(k, names))
  {
    if names != [] {
      CopiesArePaired(k, all, names[1..]);
      JoiningIsPaired(k, all, [ReadSecret(PullSource(names[0])), PutSecret(ImagePullTarget(k, names[0]))],
        CopyImageSecrets(k, names[1..]));
    }
  }

  /** The image pull secrets that the values name. */
  function PullSecrets(v: KroVersion): seq<string> {
    if v.helmValues.Some? && v.helmValues.value.raw != "" && v.helmValues.value.pullSecrets.Success? then
      v.helmValues.value.pullSecrets.value
    else []
  }

  lemma SecretsArePaired(k: Key, v: KroVersion, ctx: ClusterContext)
    ensures Paired(k, PullSecrets(v), ChartSecretTasks(k, v.chartPullSecret))
    ensures Paired(k, PullSecrets(v), ImageSecretTasks(k, ctx.workload, v.helmValues))
  {
    CopiesArePaired(k, PullSecrets(v), PullSecrets(v));
    JoiningIsPaired(k, PullSecrets(v), [PutNamespace], CopyImageSecrets(k, PullSecrets(v)));
  }

  /** What the plan reads last before it puts a secret. */
  lemma SecretsFollowTheirSources(k: Key, v: KroVersion, ctx: ClusterContext, n: nat)
    requires n < |Plan(k, v, ctx)| && Plan(k, v, ctx)[n].PutSecret?
    ensures var plan := Plan(k, v, ctx); var target := plan[n].target;
      if n == |plan| - 4 then
        && target == SecretRef(WorkloadHost(k), KroSystem, "kro-mcp-kubeconfig")
        && LastFetchIn(plan[..n]) == Some(ReadKubeconfig(SecretRef(PlatformHost, Tenant(k), ctx.mcpSecret)))
      else
        && LastFetchIn(plan[..n]) == Some(ReadSecret(SecretRef(PlatformHost, PodNamespace, target.name)))
        && (target.host == PlatformHost ==> target.namespace == Tenant(k))
        && (target.host != PlatformHost ==>
              target.host == WorkloadHost(k) && target.namespace == KroSystem && target.name in PullSecrets(v))
  {
    var plan := Plan(k, v, ctx);
    var images, kubeconfig := ImageSecretTasks(k, ctx.workload, v.helmValues), KubeconfigTasks(k, ctx);
    var front := ChartSecretTasks(k, v.chartPullSecret) + [PutFlux(Oci)] + images;
    SecretsArePaired(k, v, ctx);
    hide ChartSecretTasks, ImageSecretTasks, LastFetchIn;
    JoiningIsPaired(k, PullSecrets(v), ChartSecretTasks(k, v.chartPullSecret), [PutFlux(Oci)]);
    JoiningIsPaired(k, PullSecrets(v), ChartSecretTasks(k, v.chartPullSecret) + [PutFlux(Oci)], images);
    assert plan == front + (kubeconfig + RELEASES);
    if n < |front| {
      assert front[n] == plan[n] && front[n - 1] == plan[n - 1];
      NextFetchIn(plan, n - 1);
    } else {
      assert plan[n] == (kubeconfig + RELEASES)[n - |front|];
      assert n == |front| + 2 && plan[n - 1] == kubeconfig[1] && plan[n - 2] == kubeconfig[0];
      NextFetchIn(plan, n - 1);
      NextFetchIn(plan, n - 2);
    }
  }

  /** No secret is put on the workload cluster before its namespace has been seen to. */
  lemma NamespaceComesFirst(k: Key, v: KroVersion, ctx: ClusterContext, n: nat)
    requires n < |Plan(k, v, ctx)| && Plan(k, v, ctx)[n].PutSecret? && Plan(k, v, ctx)[n].target.host.WorkloadHost?
    ensures exists m :: 0 <= m < n && Plan(k, v, ctx)[m] == PutNamespace
  {
    var plan := Plan(k, v, ctx);
    var chart, images := ChartSecretTasks(k, v.chartPullSecret), ImageSecretTasks(k, ctx.workload, v.helmValues);
    var front := chart + [PutFlux(Oci)] + images;
    var kubeconfig := KubeconfigTasks(k, ctx);
    assert plan == front + (kubeconfig + RELEASES);
    SecretsArePaired(k, v, ctx);
    if n < |front| {
      assert plan[n] == front[n] && n > |chart| && images != [];
      assert plan[|chart| + 1] == images[0];
    } else {
      assert plan[n] == (kubeconfig + RELEASES)[n - |front|];
      assert plan[|front| + 1] == kubeconfig[1] == PutNamespace;
    }
  }

  // ---------- all runs ----------

  /** In every state of every run without tampering, whoever puts a secret on a workload cluster finds the namespace. */
  lemma CopiesFindNamespace(r: Run, i: nat, k: Key)
    requires ValidRun(r) && Untampered(r) && i < |r.states| && k in r.states[i].passes
    requires var p := r.states[i].passes[k];
      AtTask(p) && p.pc.task.PutSecret? && p.pc.task.target.host.WorkloadHost?
    ensures Home(r.states[i].world, k) in r.states[i].world.namespaces
  {
    hide ValidRun, Untampered, Plan, StoreIntact;
    var p := r.states[i].passes[k];
    RunsAreIntact(r, i, k);
    TaskIsAtPosition(p);
    NamespaceComesFirst(p.key, p.version, p.ctx, Position(p));
    var m :| 0 <= m < Position(p) && PlanOf(p)[m] == PutNamespace;
    assert Accomplished(r.states[i].world, p, PlanOf(p)[m]);
  }

  /** The kubeconfig is copied last of all, right before the releases. */
  predicate CopiesKubeconfig(p: Pass) { AtTask(p) && |p.pc.rest| == 3 }

  /**
   In every run, what a pass is about to put is a copy of the secret it has read last. Right before the releases
   that is the control plane's access secret, of which the kubeconfig alone is put, opaque, where the main release
   mounts it; else it is the secret of the same name beside the operator, which is put as it is, for the chart
   in the tenant's namespace, for an image that the values name on the workload cluster.
   */
  lemma CopiesAreFaithful(s: System, k: Key)
    requires Reachable(s) && k in s.passes && AtTask(s.passes[k]) && s.passes[k].pc.task.PutSecret?
    ensures var p, c := s.passes[k], LastFetch(TraceOf(s, k)); var target := p.pc.task.target;
      && c.Some? && CopyOf(c.value, p.carry)
      && (if CopiesKubeconfig(p) then
            && target == SecretRef(WorkloadHost(k), KroSystem, "kro-mcp-kubeconfig")
            && c.value.pc.task == ReadKubeconfig(SecretRef(PlatformHost, Tenant(k), p.ctx.mcpSecret))
          else
            && c.value.pc.task == ReadSecret(SecretRef(PlatformHost, PodNamespace, target.name))
            && (target.host == PlatformHost ==> target.namespace == Tenant(k))
            && (target.host != PlatformHost ==>
                  target.host == WorkloadHost(k) && target.namespace == KroSystem
                    && target.name in PullSecrets(p.version)))
  {
    hide Reachable, Traced, Plan, CopyOf, LastFetch, LastFetchIn, PullSecrets, Safety.StoreSafe, Safety.PassSafe;
    var p, t := s.passes[k], TraceOf(s, k);
    ReachableIsTraced(s, k);
    Safety.ReachableIsSafe(s);
    assert Safety.SafeAt(s, k);
    TracedCarries(p, t);
    TracedIsOnCourse(p, t);
    TaskIsAtPosition(p);
    SecretsFollowTheirSources(p.key, p.version, p.ctx, Position(p));
  }

  /**
   Once the write is answered, the copy is in the store: the kubeconfig alone, opaque, unless the values name an
   image pull secret of that very name and this is its copy, which the kubeconfig replaces later in the same plan.
   */
  lemma CopiesAreStored(s: System, k: Key, h: Hidden)
    requires Reachable(s) && k in s.passes && s.passes[k].pc.Write? && s.passes[k].pc.task.PutSecret?
    requires s.config.history != [] && Enabled(s, PassCalls(k, Ok, h))
    ensures var p, c := s.passes[k], LastFetch(TraceOf(s, k)); var place := Place(s.world, p.pc.task.target);
      var v := Apply(s, PassCalls(k, Ok, h)).world;
      && place in v.secrets && c.Some? && CopyOf(c.value, v.secrets[place])
      && (p.pc.task.target == KubeconfigTarget(k) && "kro-mcp-kubeconfig" !in PullSecrets(p.version) ==>
            c.value.pc.task.ReadKubeconfig?)
  {
    hide Reachable, CopyOf, LastFetch, PullSecrets, Passes.Step, Lawful;
    CopiesAreFaithful(s, k);
  }
}
