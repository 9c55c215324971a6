/**
 Answers that calls get when nothing is in their way, and where each takes the pass: what runs are made of
 that serve as examples.
 */
module Playbook {
  import opened Wrappers
  import opened Resources
  import opened Flux
  import opened Passes
  import opened Worlds
  import Statuses
  import Versions

  /** The stores allow the answer, and then they are as in `v`, and the pass as in `q`. */
  ghost predicate Leads(w: World, p: Pass, cache: Option<ProviderConfig>, epoch: nat, a: Answer, h: Hidden,
      v: World, q: Pass) {
    Lawful(w, p, cache, epoch, a, h) && Effect(w, p, a, h) == v && Passes.Step(p, a) == q
  }

  // ---------- until access ----------

  lemma Reading(w: World, p: Pass, cache: Option<ProviderConfig>, epoch: nat)
    requires p.pc.GetKro? && p.key in w.kros && w.kros[p.key].op == NoOperation
    ensures var kro := w.kros[p.key];
      Leads(w, p, cache, epoch, GotKro(kro), NOTHING, w, p.(obj := kro, snapshot := kro.status, pc := LoadConfig))
  {
  }

  lemma Loading(w: World, p: Pass, cache: Option<ProviderConfig>, epoch: nat)
    requires p.pc.LoadConfig? && cache.Some?
    ensures Leads(w, p, cache, epoch, Loaded(cache, epoch), NOTHING, w,
      p.(config := cache, epoch := Some(epoch), mode := if p.obj.deleting then Deleting else Creating,
         pc := if p.obj.deleting then CheckRequest(MCP) else GetForFinalizer))
  {
  }

  lemma FindingFinalizer(w: World, p: Pass, cache: Option<ProviderConfig>, epoch: nat)
    requires p.pc.GetForFinalizer? && p.key in w.kros
    ensures var kro := w.kros[p.key];
      Leads(w, p, cache, epoch, GotKro(kro), NOTHING, w,
        p.(obj := kro.(finalizer := true), pc := if kro.finalizer then ReconcileAccess else UpdateFinalizer))
  {
  }

  lemma AddingFinalizer(w: World, p: Pass, cache: Option<ProviderConfig>, epoch: nat)
    requires p.pc.UpdateFinalizer? && p.key in w.kros && w.kros[p.key].rv == p.obj.rv && !w.kros[p.key].deleting
    ensures var kro := Bumped(w, w.kros[p.key].(finalizer := true));
      Leads(w, p, cache, epoch, GotKro(kro), NOTHING, Tick(w.(kros := w.kros[p.key := kro])),
        p.(obj := kro, pc := ReconcileAccess))
  {
  }

  /** The provider creates what is missing, and asks to wait: a create pass ends with that. */
  lemma AskingForAccess(w: World, p: Pass, cache: Option<ProviderConfig>, epoch: nat, h: Hidden)
    requires p.pc.ReconcileAccess? && p.mode == Creating && p.obj.status == p.snapshot
    requires h.first <= Required(p.needsWorkload)
    ensures Leads(w, p, cache, epoch, Delay(1), h, MakeRequests(w, p.key, h.first),
      p.(delay := 1, pc := Done(Outcome(1, false))))
  {
    hide MakeRequests, AllGranted;
  }

  lemma NothingToMake(w: World, k: Key)
    ensures MakeRequests(w, k, {}) == w
  {
    assert MakeRequests(w, k, {}).requests == w.requests;
  }

  lemma GettingAccess(w: World, p: Pass, cache: Option<ProviderConfig>, epoch: nat)
    requires p.pc.ReconcileAccess? && AllGranted(w, p.key, p.needsWorkload)
    ensures Leads(w, p, cache, epoch, Delay(0), NOTHING, w, p.(delay := 0, pc := GetCluster(MCP)))
  {
    NothingToMake(w, p.key);
    hide MakeRequests, AllGranted;
  }

  lemma GettingMCP(w: World, p: Pass, cache: Option<ProviderConfig>, epoch: nat)
    requires p.pc == GetCluster(MCP)
    ensures Leads(w, p, cache, epoch, GotCluster(true), NOTHING, w,
      p.(ctx := p.ctx.(mcp := true), pc := GetRequest(MCP)))
  {
  }

  lemma GettingMCPSecret(w: World, p: Pass, cache: Option<ProviderConfig>, epoch: nat)
    requires p.pc == GetRequest(MCP) && p.needsWorkload && RequestRef(p.key, MCP) in w.requests
    ensures var r := w.requests[RequestRef(p.key, MCP)];
      Leads(w, p, cache, epoch, GotRequest(r), NOTHING, w,
        p.(ctx := p.ctx.(mcpSecret := SecretName(r)), pc := GetCluster(Workload)))
  {
  }

  lemma GettingWorkload(w: World, p: Pass, cache: Option<ProviderConfig>, epoch: nat)
    requires p.pc == GetCluster(Workload)
    ensures Leads(w, p, cache, epoch, GotCluster(true), NOTHING, w,
      p.(ctx := p.ctx.(workload := true), pc := GetRequest(Workload)))
  {
  }

  /** With all it needs, a create pass reports that it is at work. */
  function Started(p: Pass): Pass {
    p.(obj := Statuses.MarkProgressing(p.obj, p.now, "Reconciling", "Reconcile in progress"), pc := ResolveNamespace)
  }

  lemma GettingWorkloadSecret(w: World, p: Pass, cache: Option<ProviderConfig>, epoch: nat)
    requires p.pc == GetRequest(Workload) && RequestRef(p.key, Workload) in w.requests
    requires p.mode == Creating && p.delay == 0
    ensures var r := w.requests[RequestRef(p.key, Workload)];
      Leads(w, p, cache, epoch, GotRequest(r), NOTHING, w,
        Started(p.(ctx := p.ctx.(workloadSecret := SecretName(r)))))
  {
    hide Statuses.MarkProgressing, Statuses.Agrees;
  }

  // ---------- installing ----------

  lemma Resolving(w: World, p: Pass, cache: Option<ProviderConfig>, epoch: nat, v: KroVersion)
    requires p.pc.ResolveNamespace? && p.mode == Creating
    requires Versions.Resolve(p.config, p.obj.version) == Success(v)
    ensures var plan := Plan(p.key, v, p.ctx);
      && plan != []
      && Leads(w, p, cache, epoch, Ok, NOTHING, w, p.(version := v, pc := Look(plan[0], plan[1..])))
  {
    PlanIsNotEmpty(p.key, v, p.ctx);
    hide Plan, Versions.Resolve, Conclude;
  }

  /** The object is as it should be. */
  lemma FindingFlux(w: World, p: Pass, cache: Option<ProviderConfig>, epoch: nat, which: Which, rest: seq<Task>)
    requires p.pc == Look(PutFlux(which), rest) && RefOf(which, Tenant(p.key)) in w.flux
    requires w.flux[RefOf(which, Tenant(p.key))].spec == Desired(p, which)
    ensures var o := w.flux[RefOf(which, Tenant(p.key))];
      Leads(w, p, cache, epoch, GotFlux(o), NOTHING, w, Continue(p.(got := p.got[which := o.conditions]), rest))
  {
    hide Continue, Desired, FailProgressing;
  }

  /** It is missing, or different. */
  lemma MissingFlux(w: World, p: Pass, cache: Option<ProviderConfig>, epoch: nat, which: Which, rest: seq<Task>)
    requires p.pc == Look(PutFlux(which), rest)
    requires var ref := RefOf(which, Tenant(p.key)); ref in w.flux ==> w.flux[ref].spec != Desired(p, which)
    ensures var ref := RefOf(which, Tenant(p.key));
      var a, seen := if ref in w.flux then GotFlux(w.flux[ref]) else NotFound,
        if ref in w.flux then Some(w.flux[ref].rv) else None;
      Leads(w, p, cache, epoch, a, NOTHING, w, p.(pc := Write(PutFlux(which), rest, seen)))
  {
    hide Continue, Desired, FailProgressing;
  }

  function StoredFlux(w: World, p: Pass, which: Which): World {
    Tick(w.(flux := w.flux[RefOf(which, Tenant(p.key)) := Written(w, p, which)]))
  }

  lemma WritingFlux(w: World, p: Pass, cache: Option<ProviderConfig>, epoch: nat, which: Which, rest: seq<Task>,
      seen: Option<nat>)
    requires p.pc == Write(PutFlux(which), rest, seen)
    requires var ref := RefOf(which, Tenant(p.key)); seen == if ref in w.flux then Some(w.flux[ref].rv) else None
    ensures var o := Written(w, p, which);
      Leads(w, p, cache, epoch, GotFlux(o), NOTHING, StoredFlux(w, p, which),
        Continue(p.(got := p.got[which := o.conditions]), rest))
  {
    hide Continue, Written, FailProgressing;
  }

  lemma ReadingKubeconfig(w: World, p: Pass, cache: Option<ProviderConfig>, epoch: nat, source: SecretRef,
      rest: seq<Task>)
    requires p.pc == Look(ReadKubeconfig(source), rest) && source.host.PlatformHost? && source in w.secrets
    requires KUBECONFIG_KEY in w.secrets[source].data
    ensures Leads(w, p, cache, epoch, GotSecret(w.secrets[source]), NOTHING, w,
      Continue(p.(carry := Projected(w.secrets[source])), rest))
  {
    hide Continue, FailProgressing;
  }

  lemma MissingNamespace(w: World, p: Pass, cache: Option<ProviderConfig>, epoch: nat, rest: seq<Task>)
    requires p.pc == Look(PutNamespace, rest)
    ensures if Home(w, p.key) in w.namespaces then
        Leads(w, p, cache, epoch, Ok, NOTHING, w, Continue(p, rest))
      else
        Leads(w, p, cache, epoch, NotFound, NOTHING, w, p.(pc := Write(PutNamespace, rest, None)))
  {
    hide Continue, FailProgressing;
  }

  lemma WritingNamespace(w: World, p: Pass, cache: Option<ProviderConfig>, epoch: nat, rest: seq<Task>)
    requires p.pc == Write(PutNamespace, rest, None)
    ensures Leads(w, p, cache, epoch, Ok, NOTHING, w.(namespaces := w.namespaces + {Home(w, p.key)}), Continue(p, rest))
  {
    hide Continue, FailProgressing;
  }

  /** The secret is there as it should be, or will be written. */
  lemma MissingSecret(w: World, p: Pass, cache: Option<ProviderConfig>, epoch: nat, target: SecretRef, rest: seq<Task>)
    requires p.pc == Look(PutSecret(target), rest)
    ensures var place := Place(w, target);
      var q := p.(pc := Write(PutSecret(target), rest, None));
      && (place !in w.secrets ==> Leads(w, p, cache, epoch, NotFound, NOTHING, w, q))
      && (place in w.secrets && w.secrets[place] != p.carry ==>
            Leads(w, p, cache, epoch, GotSecret(w.secrets[place]), NOTHING, w, q))
      && (place in w.secrets && w.secrets[place] == p.carry ==>
            Leads(w, p, cache, epoch, GotSecret(p.carry), NOTHING, w.(replicas := w.replicas + {place}),
              Continue(p, rest)))
  {
    hide Continue, FailProgressing;
  }

  lemma WritingSecret(w: World, p: Pass, cache: Option<ProviderConfig>, epoch: nat, target: SecretRef, rest: seq<Task>)
    requires p.pc == Write(PutSecret(target), rest, None)
    ensures var place := Place(w, target);
      Leads(w, p, cache, epoch, Ok, NOTHING,
        w.(secrets := w.secrets[place := p.carry], replicas := w.replicas + {place}), Continue(p, rest))
  {
    hide Continue, FailProgressing;
  }

  lemma ReadingWorkloadRequest(w: World, p: Pass, cache: Option<ProviderConfig>, epoch: nat, rest: seq<Task>)
    requires p.pc == Look(ReadWorkloadRequest, rest) && Granted(w, p.key, Workload)
    ensures var r := w.requests[RequestRef(p.key, Workload)];
      Leads(w, p, cache, epoch, GotRequest(r), NOTHING, w, Continue(p.(fluxSecret := r.secretRef.value), rest))
  {
    hide Continue, FailProgressing;
  }

  lemma PatchingStatus(w: World, p: Pass, cache: Option<ProviderConfig>, epoch: nat)
    requires p.pc.PatchStatus? && p.key in w.kros && w.kros[p.key].finalizer
    ensures var kro := Bumped(w, w.kros[p.key].(status := p.obj.status));
      Leads(w, p, cache, epoch, Ok, NOTHING, Tick(w.(kros := w.kros[p.key := kro])),
        p.(pc := Done(p.pc.result)))
  {
  }

  // ---------- dismantling ----------

  lemma Checking(w: World, p: Pass, cache: Option<ProviderConfig>, epoch: nat)
    requires p.pc.CheckRequest? && Live(w, p.key, p.pc.cluster)
    ensures Leads(w, p, cache, epoch, GotRequest(w.requests[RequestRef(p.key, p.pc.cluster)]), NOTHING, w,
      p.(pc := if p.pc.cluster == MCP && p.needsWorkload then CheckRequest(Workload) else ReconcileAccess))
  {
  }

  /** Asked to wait, a deletion goes on without a handle. */
  lemma NotWaiting(w: World, p: Pass, cache: Option<ProviderConfig>, epoch: nat)
    requires p.pc.ReconcileAccess? && p.mode == Deleting
    ensures Leads(w, p, cache, epoch, Delay(1), NOTHING, w,
      p.(delay := 0, obj := Statuses.MarkTerminating(p.obj, p.now), pc := ResolveNamespace))
  {
    NothingToMake(w, p.key);
    hide MakeRequests, AllGranted, Statuses.MarkTerminating, Statuses.Agrees;
  }

  lemma SkippingGuard(w: World, p: Pass, cache: Option<ProviderConfig>, epoch: nat)
    requires p.pc.ResolveNamespace? && p.mode == Deleting && !p.ctx.mcp
    ensures Leads(w, p, cache, epoch, Ok, NOTHING, w, BeginTeardown(p))
  {
    hide BeginTeardown;
  }

  /** An object that nobody holds is gone at once. */
  lemma RemovingFlux(w: World, p: Pass, cache: Option<ProviderConfig>, epoch: nat, i: nat, ref: FluxRef)
    requires p.pc == DeleteObject(i, ref) && ref in w.flux && !w.flux[ref].held
    ensures Leads(w, p, cache, epoch, Ok, NOTHING, Tick(w.(flux := w.flux - {ref})), p.(pc := ConfirmGone(i, ref)))
  {
  }

  lemma Confirming(w: World, p: Pass, cache: Option<ProviderConfig>, epoch: nat, i: nat, ref: FluxRef)
    requires p.pc == ConfirmGone(i, ref) && ref !in w.flux && i < 2
    ensures Leads(w, p, cache, epoch, NotFound, NOTHING, w,
      p.(pc := DeleteObject(i + 1, DeleteTargets(Tenant(p.key))[i + 1])))
  {
  }

  lemma ConfirmingLast(w: World, p: Pass, cache: Option<ProviderConfig>, epoch: nat, ref: FluxRef)
    requires p.pc == ConfirmGone(2, ref) && ref !in w.flux && !p.lingering
    ensures Leads(w, p, cache, epoch, NotFound, NOTHING, w, FinishTeardown(p))
  {
    hide FinishTeardown;
  }

  lemma Revoking(w: World, p: Pass, cache: Option<ProviderConfig>, epoch: nat)
    requires p.pc.RevokeAccess?
    ensures var v := RevokeRequests(w, p.key, Hidden({}, {MCP, Workload}));
      && NoRequests(v, p.key)
      && Leads(w, p, cache, epoch, Delay(0), Hidden({}, {MCP, Workload}), v,
           p.(obj := p.obj.(finalizer := false), pc := RemoveFinalizer))
  {
  }

  /** The requests are marked, and take their time. */
  lemma RevokingSlowly(w: World, p: Pass, cache: Option<ProviderConfig>, epoch: nat)
    requires p.pc.RevokeAccess?
    ensures Leads(w, p, cache, epoch, Delay(1), Hidden({MCP, Workload}, {}),
      RevokeRequests(w, p.key, Hidden({MCP, Workload}, {})), Return(p, 1))
  {
    hide Return;
  }

  lemma RemovingFinalizer(w: World, p: Pass, cache: Option<ProviderConfig>, epoch: nat)
    requires p.pc.RemoveFinalizer? && p.key in w.kros && w.kros[p.key].rv == p.obj.rv
    requires w.kros[p.key].deleting && !w.kros[p.key].foreign
    ensures var kro := Bumped(w, w.kros[p.key].(finalizer := false));
      Leads(w, p, cache, epoch, GotKro(kro), NOTHING, Tick(w.(kros := w.kros - {p.key})),
        AfterRemoveFinalizer(p, GotKro(kro)))
  {
    hide AfterRemoveFinalizer;
  }
}
