/**
 KroReconciler as the imperative code it is. Every method is shown to make, in order, exactly the calls
 that the pass machine is waiting for, and to bring the object in memory to where the machine has it;
 what is proved about the machine's runs thus holds of the code.
 */
module Domain {
  import opened Wrappers
  import opened Resources
  import opened Statuses
  import opened Flux
  import opened Passes
  import opened Objects
  import opened Apis
  import Versions

  class KroReconciler {
    const api: Api
    const now: nat
    ghost const needsWorkload: bool

    constructor (api: Api, now: nat, ghost needsWorkload: bool)
      ensures this.api == api && this.now == now && this.needsWorkload == needsWorkload
    {
      this.api, this.now, this.needsWorkload := api, now, needsWorkload;
    }

    ghost predicate InStep()
      reads api
    {
      && api.Valid() && api.Current().now == now && api.Current().key == api.key
      && api.Current().needsWorkload == needsWorkload
    }

    // ---------- CreateOrUpdate ----------

    /** Copying starts with reading the secret in the controller's own namespace. */
    method GetPullSecret(name: string, ghost rest: seq<Task>) returns (secret: Secret, err: Option<string>)
      requires InStep() && At(api.Current(), [ReadSecret(PullSource(name))] + rest)
      modifies api
      ensures InStep() && Dealt(old(api.Current()), api.Current(), old(api.Current()).(carry := secret), rest, err)
    {
      hide Api.Valid, Continue, FailProgressing;
      var a := api.Look(ReadSecret(PullSource(name)), rest);
      if a.GotSecret? {
        return a.secret, None;
      }
      return NO_SECRET, Some(ErrorOf(a));
    }

    /** CreateOrUpdate of a secret: get it, and write unless it is as it should be. */
    method CreateOrUpdateSecret(target: SecretRef, secret: Secret, ghost rest: seq<Task>) returns (err: Option<string>)
      requires InStep() && At(api.Current(), [PutSecret(target)] + rest) && api.Current().carry == secret
      modifies api
      ensures InStep() && Dealt(old(api.Current()), api.Current(), old(api.Current()), rest, err)
    {
      hide Api.Valid, Continue, FailProgressing;
      ghost var p := api.Current();
      PcDoesNotMatter(p, rest);
      var a := api.Look(PutSecret(target), rest);
      if a.GotSecret? && a.secret == secret {
        return None;
      } else if a.GotSecret? || a.NotFound? {
        var b := api.WriteSecret(target, secret, rest);
        return if b.Ok? then None else Some(ErrorOf(b));
      }
      return Some(ErrorOf(a));
    }

    /** The kro-system namespace on the workload cluster. */
    method EnsureNamespace(ghost rest: seq<Task>) returns (err: Option<string>)
      requires InStep() && At(api.Current(), [PutNamespace] + rest)
      modifies api
      ensures InStep() && Dealt(old(api.Current()), api.Current(), old(api.Current()), rest, err)
    {
      hide Api.Valid, Continue, FailProgressing;
      ghost var p := api.Current();
      PcDoesNotMatter(p, rest);
      var a := api.Look(PutNamespace, rest);
      if a.Ok? {
        return None;
      } else if a.NotFound? {
        var b := api.WriteNamespace(rest);
        return if b.Ok? then None else Some(ErrorOf(b));
      }
      return Some(ErrorOf(a));
    }

    method ReplicateChartPullSecret(name: string, ghost rest: seq<Task>) returns (err: Option<string>)
      requires InStep() && rest != [] && At(api.Current(), ChartSecretTasks(api.key, name) + rest)
      modifies api
      ensures InStep() && Replicated(old(api.Current()), api.Current(), rest, err)
    {
      hide Api.Valid, FailProgressing;
      if name == "" {
        assert ChartSecretTasks(api.key, name) + rest == rest;
        return None;
      }
      ghost var put := [PutSecret(ChartPullTarget(api.key, name))] + rest;
      assert ChartSecretTasks(api.key, name) + rest == [ReadSecret(PullSource(name))] + put;
      ghost var p := api.Current();
      var secret, failure := GetPullSecret(name, put);
      if failure.Some? {
        return failure;
      }
      ghost var q := api.Current();
      err := CreateOrUpdateSecret(ChartPullTarget(api.key, name), secret, rest);
      if err.Some? { FailingKeepsCarry(p, q, err.value); }
    }

    /** Every secret the Helm values name goes to the workload cluster. */
    method ReplicateImagePullSecrets(values: Option<Json>, workload: bool,
      ghost rest: seq<Task>) returns (err: Option<string>)
      requires InStep() && rest != [] && At(api.Current(), ImageSecretTasks(api.key, workload, values) + rest)
      modifies api
      ensures InStep() && Replicated(old(api.Current()), api.Current(), rest, err)
    {
      hide Api.Valid, FailProgressing;
      ghost var todo := ImageSecretTasks(api.key, workload, values) + rest;
      var extracted := Versions.ExtractHelmValues(values);
      if extracted.Failure? {
        api.GiveUp(extracted.error, todo[1..]);
        return Some(extracted.error);
      }
      var names := extracted.value;
      if names == [] {
        assert todo == rest;
        return None;
      }
      if !workload {
        var reason := "workload cluster is required to replicate image pull secrets but was nil";
        api.GiveUp(reason, todo[1..]);
        return Some(reason);
      }
      ghost var copies := CopyImageSecrets(api.key, names);
      assert todo == [PutNamespace] + (copies + rest);
      err := EnsureNamespace(copies + rest);
      if err.Some? {
        return;
      }
      ghost var p := api.Current();
      err := CopyImagePullSecrets(names, rest);
      if err.Some? { FailingKeepsCarry(old(api.Current()), p, err.value); }
    }

    /** The loop over the references. */
    method CopyImagePullSecrets(names: seq<string>, ghost rest: seq<Task>) returns (err: Option<string>)
      requires InStep() && rest != [] && At(api.Current(), CopyImageSecrets(api.key, names) + rest)
      modifies api
      ensures InStep() && Replicated(old(api.Current()), api.Current(), rest, err)
    {
      hide Api.Valid, FailProgressing;
      for i := 0 to |names|
        invariant InStep()
        invariant Replicated(old(api.Current()), api.Current(), CopyImageSecrets(api.key, names[i..]) + rest, None)
      {
        ghost var later := CopyImageSecrets(api.key, names[i + 1..]) + rest;
        ghost var put := [PutSecret(ImagePullTarget(api.key, names[i]))] + later;
        assert names[i..][1..] == names[i + 1..];
        assert CopyImageSecrets(api.key, names[i..]) + rest == [ReadSecret(PullSource(names[i]))] + put;
        ghost var p := api.Current();
        var source, failure := GetPullSecret(names[i], put);
        if failure.Some? {
          FailingKeepsCarry(old(api.Current()), p, failure.value);
          return failure;
        }
        ghost var q := api.Current();
        err := CreateOrUpdateSecret(ImagePullTarget(api.key, names[i]), source, later);
        if err.Some? {
          FailingKeepsCarry(old(api.Current()), q, err.value);
          return;
        }
      }
      assert CopyImageSecrets(api.key, names[|names|..]) + rest == rest;
      err := None;
    }

    /** The kubeconfig alone of the control plane's access secret, as a secret of its own. */
    method GetKubeconfig(source: SecretRef, ghost rest: seq<Task>) returns (secret: Secret, err: Option<string>)
      requires InStep() && At(api.Current(), [ReadKubeconfig(source)] + rest)
      modifies api
      ensures InStep() && Dealt(old(api.Current()), api.Current(), old(api.Current()).(carry := secret), rest, err)
    {
      hide Api.Valid, FailProgressing, Continue;
      var a := api.Look(ReadKubeconfig(source), rest);
      if !a.GotSecret? {
        return NO_SECRET, Some(ErrorOf(a));
      } else if KUBECONFIG_KEY !in a.secret.data {
        return NO_SECRET, Some("MCP kubeconfig secret does not contain the kubeconfig key");
      }
      return Projected(a.secret), None;
    }

    /** The kubeconfig of the control plane goes to the workload cluster, and nothing else of its secret. */
    method ReplicateMCPKubeconfig(ctx: ClusterContext, ghost rest: seq<Task>) returns (err: Option<string>)
      requires InStep() && rest != [] && At(api.Current(), KubeconfigTasks(api.key, ctx) + rest)
      modifies api
      ensures InStep() && Replicated(old(api.Current()), api.Current(), rest, err)
    {
      hide Api.Valid, FailProgressing;
      if !ctx.workload {
        var reason := "workload cluster is required to replicate MCP kubeconfig but was nil";
        api.GiveUp(reason, (KubeconfigTasks(api.key, ctx) + rest)[1..]);
        return Some(reason);
      }
      var source := ChartPullTarget(api.key, ctx.mcpSecret);
      ghost var put := [PutSecret(KubeconfigTarget(api.key))] + rest;
      assert KubeconfigTasks(api.key, ctx) + rest == [ReadKubeconfig(source)] + ([PutNamespace] + put);
      ghost var p := api.Current();
      var secret, failure := GetKubeconfig(source, [PutNamespace] + put);
      if failure.Some? {
        return failure;
      }
      ghost var q := api.Current();
      err := EnsureNamespace(put);
      if err.Some? {
        FailingKeepsCarry(p, q, err.value);
        return;
      }
      q := api.Current();
      err := CreateOrUpdateSecret(KubeconfigTarget(api.key), secret, rest);
      if err.Some? { FailingKeepsCarry(p, q, err.value); }
    }

    /** CreateOrUpdate of one of the three Flux objects; returns the conditions it came back with. */
    method CreateOrUpdateFlux(which: Which, spec: FluxSpec, ghost rest: seq<Task>)
      returns (conditions: seq<Condition>, err: Option<string>)
      requires InStep() && At(api.Current(), [PutFlux(which)] + rest) && spec == Desired(api.Current(), which)
      modifies api
      ensures InStep()
      ensures Dealt(old(api.Current()), api.Current(),
        old(api.Current()).(got := old(api.Current()).got[which := conditions]), rest, err)
    {
      hide Api.Valid, FailProgressing, Continue;
      ghost var p := api.Current();
      PcDoesNotMatter(p, rest);
      conditions := [];
      var a := api.Look(PutFlux(which), rest);
      if !a.GotFlux? && !a.NotFound? {
        return conditions, Some(ErrorOf(a));
      }
      if a.GotFlux? && a.flux.spec == spec {
        return a.flux.conditions, None;
      }
      var b := api.WriteFlux(which, spec, rest, if a.GotFlux? then Some(a.flux.rv) else None);
      if b.GotFlux? {
        PcDoesNotMatter(p.(got := p.got[which := b.flux.conditions]), rest);
        return b.flux.conditions, None;
      }
      return conditions, Some(ErrorOf(b));
    }

    method CreateOrUpdateOCIRepository(version: KroVersion, ghost rest: seq<Task>)
      returns (conditions: seq<Condition>, err: Option<string>)
      requires InStep() && At(api.Current(), [PutFlux(Oci)] + rest) && api.Current().version == version
      modifies api
      ensures InStep()
      ensures Dealt(old(api.Current()), api.Current(),
        old(api.Current()).(got := old(api.Current()).got[Oci := conditions]), rest, err)
    {
      hide Api.Valid, FailProgressing, Continue;
      conditions, err := CreateOrUpdateFlux(Oci, OciRepositorySpec(version), rest);
    }

    method CreateOrUpdateMCPCRDsHelmRelease(ctx: ClusterContext, ghost rest: seq<Task>)
      returns (conditions: seq<Condition>, err: Option<string>)
      requires InStep() && At(api.Current(), [PutFlux(Crds)] + rest) && api.Current().ctx == ctx
      modifies api
      ensures InStep()
      ensures Dealt(old(api.Current()), api.Current(),
        old(api.Current()).(got := old(api.Current()).got[Crds := conditions]), rest, err)
    {
      hide Api.Valid, FailProgressing, Continue;
      conditions, err := CreateOrUpdateFlux(Crds, CrdsReleaseSpec(Tenant(api.key), ctx.mcpSecret), rest);
    }

    /** The secret of the workload cluster's access request; a granted request has one. */
    method GetWorkloadFluxConfig(ghost rest: seq<Task>) returns (name: string, err: Option<string>)
      requires InStep() && At(api.Current(), [ReadWorkloadRequest] + rest)
      modifies api
      ensures InStep() && Dealt(old(api.Current()), api.Current(), old(api.Current()).(fluxSecret := name), rest, err)
    {
      hide Api.Valid, FailProgressing, Continue;
      var a := api.Look(ReadWorkloadRequest, rest);
      if a.GotRequest? && a.request.secretRef.Some? {
        return a.request.secretRef.value, None;
      }
      return "", Some(ErrorOf(a));
    }

    /** The last task: the main release, built from the values and the workload access request. */
    method CreateOrUpdateHelmRelease(values: Option<Json>) returns (conditions: seq<Condition>, err: Option<string>)
      requires InStep() && At(api.Current(), [ReadWorkloadRequest, PutFlux(Main)])
        && api.Current().version.helmValues == values
      modifies api
      ensures InStep()
      ensures var p, q := old(api.Current()), api.Current();
        if err.Some? then q == FailProgressing(p, err.value).(fluxSecret := q.fluxSecret)
        else q == Conclude(p.(fluxSecret := q.fluxSecret, got := p.got[Main := conditions]))
    {
      hide Api.Valid, FailProgressing, Conclude;
      ghost var p := api.Current();
      assert [ReadWorkloadRequest, PutFlux(Main)] == [ReadWorkloadRequest] + [PutFlux(Main)];
      var name, failure := GetWorkloadFluxConfig([PutFlux(Main)]);
      if failure.Some? {
        return [], failure;
      }
      ghost var q := api.Current();
      assert [PutFlux(Main)] == [PutFlux(Main)] + [];
      conditions, err := CreateOrUpdateFlux(Main, MainReleaseSpec(Tenant(api.key), values, name), []);
      if err.Some? {
        FailingKeepsFluxSecret(p, q, err.value);
      } else {
        PcDoesNotMatter(p.(fluxSecret := name, got := p.got[Main := conditions]), []);
      }
    }

    /** The first fallible steps of CreateOrUpdate: the chart source, and all secrets. */
    method Prepare(version: KroVersion, ctx: ClusterContext) returns (oci: seq<Condition>, err: Option<string>)
      requires InStep() && At(api.Current(), Plan(api.key, version, ctx))
      requires api.Current().version == version && api.Current().ctx == ctx
      modifies api
      ensures InStep()
      ensures var p, q := old(api.Current()), api.Current();
        if err.Some? then q == FailProgressing(Filled(p, q), err.value)
        else q == Filled(p, q).(pc := q.pc) && At(q, RELEASES) && q.got == p.got[Oci := oci]
    {
      hide Api.Valid, FailProgressing, Conclude, ChartSecretTasks, ImageSecretTasks, KubeconfigTasks;
      ghost var p := api.Current();
      ghost var afterImages := KubeconfigTasks(api.key, ctx) + RELEASES;
      ghost var afterSource := ImageSecretTasks(api.key, ctx.workload, version.helmValues) + afterImages;
      oci := [];
      ghost var q := p;
      err := ReplicateChartPullSecret(version.chartPullSecret, [PutFlux(Oci)] + afterSource);
      if err.Some? { FailingIsFilled(p, q, api.Current(), err.value); return; }
      q := api.Current();
      oci, err := CreateOrUpdateOCIRepository(version, afterSource);
      if err.Some? { FailingIsFilled(p, q, api.Current(), err.value); return; }
      q := api.Current();
      err := ReplicateImagePullSecrets(version.helmValues, ctx.workload, afterImages);
      if err.Some? { FailingIsFilled(p, q, api.Current(), err.value); return; }
      q := api.Current();
      err := ReplicateMCPKubeconfig(ctx, RELEASES);
      if err.Some? { FailingIsFilled(p, q, api.Current(), err.value); }
    }

    /** All fallible steps of CreateOrUpdate, in their order. */
    method Install(version: KroVersion, ctx: ClusterContext)
      returns (oci: seq<Condition>, crds: seq<Condition>, main: seq<Condition>, err: Option<string>)
      requires InStep() && At(api.Current(), Plan(api.key, version, ctx))
      requires api.Current().version == version && api.Current().ctx == ctx
      modifies api
      ensures InStep()
      ensures var p, q := old(api.Current()), api.Current();
        if err.Some? then q == FailProgressing(Filled(p, q), err.value)
        else q == Conclude(Filled(p, q)) && q.got == p.got[Oci := oci][Crds := crds][Main := main]
    {
      hide Api.Valid, FailProgressing, Conclude, Plan;
      ghost var p := api.Current();
      crds, main := [], [];
      oci, err := Prepare(version, ctx);
      if err.Some? { return; }
      ghost var q := api.Current();
      assert RELEASES == [PutFlux(Crds)] + [ReadWorkloadRequest, PutFlux(Main)];
      crds, err := CreateOrUpdateMCPCRDsHelmRelease(ctx, [ReadWorkloadRequest, PutFlux(Main)]);
      if err.Some? { FailingIsFilled(p, q, api.Current(), err.value); return; }
      q := api.Current();
      main, err := CreateOrUpdateHelmRelease(version.helmValues);
      if err.Some? {
        FailingIsFilled(p, q, api.Current(), err.value);
      } else {
        ConcludingIsFilled(p, q, q.(fluxSecret := api.Current().fluxSecret, got := q.got[Main := main]));
      }
    }

    /** The start of CreateOrUpdate, up to the resolved version. */
    method ResolveRequest(obj: KroObject, config: ConfigObject) returns (ok: bool, r: Result<VersionCell,
      Versions.VersionError>)
      requires InStep() && api.Current().pc.ResolveNamespace?
      requires config.Valid() && api !in config.Repr && obj !in config.Repr && obj.conditions !in config.Repr
      modifies api, obj, obj.conditions
      ensures InStep() && (obj.conditions == old(obj.conditions) || fresh(obj.conditions))
      ensures obj.View() == MarkProgressing(old(obj.View()), now, "Reconciling", "Reconcile in progress")
      ensures exists a: Answer :: a.Ok? == ok && api.Current() == AfterResolveNamespace(old(api.Current()), a)
      ensures Versions.Resolve(Some(old(config.View())), obj.View().version)
        == (if r.Success? then Success(VersionView(r.value)) else Failure(r.error))
    {
      hide Api.Valid, MarkProgressing, Marked, AfterResolveNamespace, ConfigObject.View, ConfigObject.Valid;
      obj.StatusProgressing(now, "Reconciling", "Reconcile in progress");
      var a := api.ResolveNamespace();
      ok := a.Ok?;
      r := config.ResolveVersion(obj.version);
    }

    /**
     CreateOrUpdate: resolve the version, install, and report the three objects. The config is the caller's to
     give away: a provider may change it, but for the interval at which it is polled.
     */
    method CreateOrUpdate(obj: KroObject, config: ConfigObject, ctx: ClusterContext) returns (failed: bool)
      requires InStep() && api.Current().pc.ResolveNamespace? && api.Current().mode == Creating
      requires api.Current().ctx == ctx && config.Valid() && api.Current().config == Some(config.View())
      requires api.Current().obj == MarkProgressing(obj.View(), now, "Reconciling", "Reconcile in progress")
      requires config.Valid() && api !in config.Repr && obj !in config.Repr && obj.conditions !in config.Repr
      modifies api, obj, obj.conditions, config.Repr
      ensures InStep() && (obj.conditions == old(obj.conditions) || fresh(obj.conditions))
      ensures Ended(old(api.Current()), api.Current(), obj.View(), 0, failed)
      ensures config.Valid() && Content(config.pollInterval) == old(Content(config.pollInterval))
    {
      hide KroObject.View, Api.Valid, MarkProgressing, Marked, Conclude, Plan, ConfigObject.View, ConfigObject.Valid,
        Ended,
        AfterResolveNamespace;
      ghost var p := api.Current();
      var ok, resolved := ResolveRequest(obj, config);
      ghost var a: Answer :| a.Ok? == ok && api.Current() == AfterResolveNamespace(p, a);
      ResolvingStartsInstallation(p, a);
      if !ok {
        return true;
      }
      if resolved.Failure? {
        // invalid user input: reported, not retried
        obj.StatusProgressing(now, RECONCILE_ERROR, Versions.Describe(resolved.error));
        return false;
      }
      var version := LoadVersion(resolved.value);
      ghost var began := api.Current();
      failed := InstallAndReport(obj, version, ctx);
      LaterEnds(p, began, api.Current(), obj.View(), 0, failed);
    }

    /** The rest of CreateOrUpdate, for a resolved version. */
    method InstallAndReport(obj: KroObject, version: KroVersion, ctx: ClusterContext) returns (failed: bool)
      requires InStep() && At(api.Current(), Plan(api.key, version, ctx))
      requires api.Current().version == version && api.Current().ctx == ctx && api.Current().obj == obj.View()
      modifies api, obj, obj.conditions
      ensures InStep() && (obj.conditions == old(obj.conditions) || fresh(obj.conditions))
      ensures Ended(old(api.Current()), api.Current(), obj.View(), 0, failed)
    {
      hide KroObject.View, Api.Valid, MarkProgressing, MarkReady, Marked, Conclude, FailProgressing, Plan, Ended,
        ResourceStatus,
        ReportedResources;
      ghost var p := api.Current();
      var oci, crds, main, err := Install(version, ctx);
      if err.Some? {
        obj.StatusProgressing(now, RECONCILE_ERROR, err.value);
        FailingEnds(p, Filled(p, api.Current()), err.value);
        return true;
      }
      ConcludingEnds(p, Filled(p, api.Current()), oci, crds, main);
      obj.SetResources(ReportedResources(Tenant(api.key), oci, main, crds));
      if ResourceStatus(oci).0 == Ready && ResourceStatus(main).0 == Ready && ResourceStatus(crds).0 == Ready {
        obj.StatusReady(now);
      } else {
        obj.StatusProgressing(now, "Reconciling", "Waiting for managed resources to become ready");
      }
      return false;
    }

    // ---------- Delete ----------

    /** The number of ResourceGraphDefinitions on the control plane; none if the kind is not installed. */
    method CountResourceGraphDefinitions() returns (n: nat, err: Option<string>)
      requires InStep() && api.Current().pc.CountRGDs?
      modifies api
      ensures InStep()
      ensures api.Current() == AfterCountRGDs(old(api.Current()), if err.Some? then Failed(err.value) else Counted(n))
    {
      hide Api.Valid;
      var a := api.CountRGDs();
      if a.Counted? {
        return a.n, None;
      } else if a.NoSuchKind? || a.NotFound? {
        return 0, None;
      }
      return 0, Some(ErrorOf(a));
    }

    /** The body of Delete's loop: ask for the deletion, and look. Only NotFound confirms it. */
    method DeleteAndGet(ghost i: nat, ref: FluxRef) returns (gone: bool, err: Option<string>)
      requires InStep() && api.Current().pc == DeleteObject(i, ref)
      modifies api
      ensures InStep()
      ensures api.Current() == if err.Some? then FailTerminating(old(api.Current()), err.value)
        else AfterConfirmGone(old(api.Current()), i, if gone then NotFound else Ok)
    {
      hide Api.Valid, Marked, MarkTerminatingWithReason, MarkReady, Stays, Accesses, ErrorOf;
      var a := api.DeleteObject(i, ref);
      if !a.Ok? && !a.NotFound? {
        return false, Some(ErrorOf(a));
      }
      var b := api.GetObject(i, ref);
      return b.NotFound?, None;
    }

    /** Delete's loop over the three objects, which may be gone, go, or linger. */
    method DeleteObjects(obj: KroObject) returns (requeue: int, failed: bool)
      requires InStep() && api.Current().obj == obj.View() && !api.Current().lingering
      requires api.Current().pc == DeleteObject(0, DeleteTargets(Tenant(api.key))[0])
      modifies api, obj, obj.conditions
      ensures InStep() && (obj.conditions == old(obj.conditions) || fresh(obj.conditions))
      ensures TornDown(old(api.Current()), api.Current(), obj.View(), requeue, failed)
    {
      hide KroObject.View, Api.Valid, Marked, MarkTerminatingWithReason, MarkReady, FailTerminating, FinishTeardown,
        TornDown;
      ghost var began := api.Current();
      var objects := DeleteTargets(Tenant(api.key));
      var stillExist := false;
      ghost var p := api.Current();
      for i := 0 to |objects|
        invariant obj.conditions == old(obj.conditions) && obj.View() == old(obj.View())
        invariant InStep() && p.lingering == stillExist
        invariant i < 3 ==> api.Current() == p && p.pc == DeleteObject(i, objects[i])
        invariant i == 3 ==> api.Current() == FinishTeardown(p)
        invariant p == old(api.Current()).(pc := p.pc, lingering := stillExist)
      {
        var gone, err := DeleteAndGet(i, objects[i]);
        if err.Some? {
          obj.StatusTerminatingWithReason(now, RECONCILE_ERROR, err.value);
          FailingIsTornDown(p, err.value);
          LaterIsTornDown(began, p, api.Current(), obj.View(), 0, true);
          return 0, true;
        }
        if !gone {
          stillExist := true;
        }
        p := p.(lingering := stillExist, pc := if i + 1 < 3 then DeleteObject(i + 1, objects[i + 1]) else p.pc);
      }
      FinishingIsTornDown(p);
      LaterIsTornDown(began, p, api.Current(), api.Current().obj, if stillExist then 10 else 0, false);
      if stillExist {
        return 10, false;
      }
      obj.SetResources([]);
      obj.StatusReady(now);
      return 0, false;
    }

    /** The first half of Delete: block until the control plane lists no ResourceGraphDefinition. */
    method AwaitDefinitions(obj: KroObject) returns (requeue: int, failed: bool)
      requires InStep() && api.Current().pc.CountRGDs? && api.Current().obj == obj.View()
      modifies api, obj, obj.conditions
      ensures InStep() && (obj.conditions == old(obj.conditions) || fresh(obj.conditions))
      ensures if failed || requeue > 0 then TornDown(old(api.Current()), api.Current(), obj.View(), requeue, failed)
        else api.Current() == BeginTeardown(old(api.Current())) && obj.View() == old(obj.View())
    {
      hide KroObject.View, Api.Valid, FailTerminating, AfterCountRGDs, BeginTeardown, TornDown, ManagedResources;
      ghost var p := api.Current();
      var remaining, err := CountResourceGraphDefinitions();
      CountingIsTornDown(p, if err.Some? then Failed(err.value) else Counted(remaining));
      if err.Some? {
        obj.StatusTerminatingWithReason(now, RECONCILE_ERROR, err.value);
        return 0, true;
      }
      if remaining > 0 {
        obj.StatusTerminatingMessage(now, BLOCKED_MESSAGE);
        obj.SetResources(ManagedResources(Tenant(api.key), Terminating));
        return 10, false;
      }
      return 0, false;
    }

    /** Delete: waits for the ResourceGraphDefinitions to go, then removes the three objects. */
    method Delete(obj: KroObject, ctx: ClusterContext) returns (requeue: int, failed: bool)
      requires InStep() && api.Current().pc.ResolveNamespace? && api.Current().mode == Deleting
      requires api.Current().ctx == ctx && api.Current().obj == MarkTerminating(obj.View(), now)
      modifies api, obj, obj.conditions
      ensures InStep() && (obj.conditions == old(obj.conditions) || fresh(obj.conditions))
      ensures TornDown(old(api.Current()), api.Current(), obj.View(), requeue, failed)
    {
      hide KroObject.View, Api.Valid, MarkTerminating, MarkTerminatingWithReason, Marked, ManagedResources,
        AfterResolveNamespace, TornDown,
        AfterCountRGDs, FailTerminating, BeginTeardown;
      obj.StatusTerminating(now);
      ghost var p := api.Current();
      var a := api.ResolveNamespace();
      ResolvingStartsTeardown(p, a);
      if !a.Ok? {
        return 0, true;
      }
      if ctx.mcp {
        requeue, failed := AwaitDefinitions(obj);
        if failed || requeue > 0 {
          LaterIsTornDown(p, p.(pc := CountRGDs), api.Current(), obj.View(), requeue, failed);
          return;
        }
      }
      requeue, failed := DeleteManaged(obj, if ctx.mcp then p.(pc := CountRGDs) else p);
      LaterIsTornDown(p, if ctx.mcp then p.(pc := CountRGDs) else p, api.Current(), obj.View(), requeue, failed);
    }

    /** The second half of Delete: report what is to go, and remove it. */
    method DeleteManaged(obj: KroObject, ghost p: Pass) returns (requeue: int, failed: bool)
      requires InStep() && api.Current() == BeginTeardown(p) && p.obj == obj.View() && p.key == api.key
      modifies api, obj, obj.conditions
      ensures InStep() && (obj.conditions == old(obj.conditions) || fresh(obj.conditions))
      ensures TornDown(p, api.Current(), obj.View(), requeue, failed)
    {
      hide KroObject.View, Api.Valid, ManagedResources, TornDown;
      obj.SetResources(ManagedResources(Tenant(api.key), Terminating));
      ghost var began := api.Current();
      requeue, failed := DeleteObjects(obj);
      LaterIsTornDown(p, began, api.Current(), obj.View(), requeue, failed);
    }
  }

  /** How a teardown pass `p` has become `q`: out with an error, out to come back, or ready to give up its access. */
  ghost predicate TornDown(p: Pass, q: Pass, obj: Kro, requeue: int, failed: bool) {
    && q == p.(pc := q.pc, obj := obj, lingering := q.lingering)
    && (if failed then q == Close(q, Outcome(0, true))
        else if requeue > 0 then q == Close(q, Outcome(requeue, false))
        else q.pc.RevokeAccess?)
  }

  lemma FailingIsTornDown(p: Pass, message: string)
    ensures var q := FailTerminating(p, message);
      q.obj == MarkTerminatingWithReason(p.obj, p.now, RECONCILE_ERROR, message) && TornDown(p, q, q.obj, 0, true)
  {
    hide Marked;
  }

  lemma FinishingIsTornDown(p: Pass)
    ensures var q := FinishTeardown(p);
      && TornDown(p, q, q.obj, if p.lingering then 10 else 0, false)
      && q.obj == if p.lingering then p.obj else MarkReady(Report(p, []).obj, p.now)
  {
    hide Marked, MarkReady;
  }

  lemma CountingIsTornDown(p: Pass, a: Answer)
    requires a.Failed? || a.Counted?
    ensures var q := AfterCountRGDs(p, a);
      && (a.Failed? ==>
            && TornDown(p, q, q.obj, 0, true)
            && q.obj == MarkTerminatingWithReason(p.obj, p.now, RECONCILE_ERROR, a.error))
      && (a.Counted? && a.n > 0 ==>
            && TornDown(p, q, q.obj, 10, false)
            && q.obj == Report(p.(obj := MarkTerminatingWithReason(p.obj, p.now, "Terminating", BLOCKED_MESSAGE)),
                 ManagedResources(Tenant(p.key), Terminating)).obj)
      && (a == Counted(0) ==> q == BeginTeardown(p))
  {
    hide Marked, MarkTerminatingWithReason, ManagedResources, Return;
    if a.Failed? { FailingIsTornDown(p, a.error); }
    if a.Counted? {
      var blocked := Report(p.(obj := MarkTerminatingWithReason(p.obj, p.now, "Terminating", BLOCKED_MESSAGE)),
        ManagedResources(Tenant(p.key), Terminating));
      ReturningIsTornDown(blocked, 10);
    }
  }

  lemma ReturningIsTornDown(p: Pass, requeue: int)
    requires requeue > 0
    ensures TornDown(p, Return(p, requeue), p.obj, requeue, false)
  {
  }

  lemma ResolvingStartsTeardown(p: Pass, a: Answer)
    requires p.mode == Deleting
    ensures var q := AfterResolveNamespace(p, a);
      && (!a.Ok? ==> TornDown(p, q, p.obj, 0, true))
      && (a.Ok? && p.ctx.mcp ==> q == p.(pc := CountRGDs))
      && (a.Ok? && !p.ctx.mcp ==> q == BeginTeardown(p))
  {
  }

  /** What the pass did before changes nothing about how it was torn down. */
  lemma LaterIsTornDown(p: Pass, later: Pass, q: Pass, obj: Kro, requeue: int, failed: bool)
    requires later == p.(pc := later.pc, obj := later.obj, lingering := later.lingering)
    requires TornDown(later, q, obj, requeue, failed)
    ensures TornDown(p, q, obj, requeue, failed)
  {
  }

  // ---------- tasks ----------

  /** The pass is about to deal with the first of some tasks. */
  ghost predicate At(p: Pass, todo: seq<Task>) {
    todo != [] && p.pc == Look(todo[0], todo[1..])
  }

  /** Dealing with a task either failed, or filled registers as in `filled` and went on. */
  ghost predicate Dealt(p: Pass, q: Pass, filled: Pass, rest: seq<Task>, err: Option<string>) {
    q == if err.Some? then FailProgressing(p, err.value) else Continue(filled, rest)
  }

  /** Replication changes what the pass carries around, and no other register. */
  ghost predicate Replicated(p: Pass, q: Pass, rest: seq<Task>, err: Option<string>) {
    if err.Some? then q == FailProgressing(p, err.value).(carry := q.carry)
    else q == p.(pc := q.pc, carry := q.carry) && At(q, rest)
  }

  lemma FailingIgnores(p: Pass, pc: Pc, message: string)
    ensures FailProgressing(p.(pc := pc), message) == FailProgressing(p, message)
  {
    hide MarkProgressing, Marked;
  }

  /** How a pass fails does not depend on where it stands. */
  lemma FailingIgnoresPc(p: Pass, message: string)
    ensures forall pc :: FailProgressing(p.(pc := pc), message) == FailProgressing(p, message)
  {
    hide *;
    forall pc ensures FailProgressing(p.(pc := pc), message) == FailProgressing(p, message) {
      FailingIgnores(p, pc, message);
    }
  }

  lemma ConcludingIgnores(p: Pass, pc: Pc)
    ensures Conclude(p.(pc := pc)) == Conclude(p)
  {
    hide MarkProgressing, Marked, MarkReady, Agrees, ReportedResources, Conditions, ResourceStatus, Leaves;
    assert AllReady(p.(pc := pc)) == AllReady(p) by { ReportingIgnores(p, pc); }
    ReportingIgnores(p, pc);
    hide AllReady;
  }

  lemma ReportingIgnores(p: Pass, pc: Pc)
    ensures AllReady(p.(pc := pc)) == AllReady(p)
    ensures forall which :: Conditions(p.(pc := pc), which) == Conditions(p, which)
  {
  }

  lemma ContinuingIgnores(p: Pass, pc: Pc, rest: seq<Task>)
    ensures Continue(p.(pc := pc), rest) == Continue(p, rest)
  {
    hide Conclude, OnPlan;
    ConcludingIgnores(p, pc);
  }

  /** Nor does how it goes on. */
  lemma PcDoesNotMatter(p: Pass, rest: seq<Task>)
    ensures forall pc :: Continue(p.(pc := pc), rest) == Continue(p, rest)
    ensures forall pc, message :: FailProgressing(p.(pc := pc), message) == FailProgressing(p, message)
  {
    hide *;
    forall pc ensures Continue(p.(pc := pc), rest) == Continue(p, rest) { ContinuingIgnores(p, pc, rest); }
    forall pc, message ensures FailProgressing(p.(pc := pc), message) == FailProgressing(p, message) {
      FailingIgnores(p, pc, message);
    }
  }

  lemma FailingKeepsCarry(p: Pass, q: Pass, message: string)
    requires q == p.(pc := q.pc, carry := q.carry)
    ensures FailProgressing(q, message) == FailProgressing(p, message).(carry := q.carry)
  {
    hide MarkProgressing, Marked;
  }

  lemma FailingKeepsFluxSecret(p: Pass, q: Pass, message: string)
    requires q == p.(pc := q.pc, fluxSecret := q.fluxSecret)
    ensures FailProgressing(q, message) == FailProgressing(p, message).(fluxSecret := q.fluxSecret)
  {
    hide MarkProgressing, Marked;
  }

  /** Pass `p` with the registers of the plan as `q` has them. */
  ghost function Filled(p: Pass, q: Pass): Pass {
    p.(carry := q.carry, fluxSecret := q.fluxSecret, got := q.got)
  }

  lemma FailingIsFilled(p: Pass, q: Pass, r: Pass, message: string)
    requires q == Filled(p, q).(pc := q.pc)
    requires r == FailProgressing(q, message).(carry := r.carry, fluxSecret := r.fluxSecret)
    ensures r == FailProgressing(Filled(p, r), message)
  {
    hide MarkProgressing, Marked;
  }

  lemma ConcludingIsFilled(p: Pass, q: Pass, filled: Pass)
    requires q == Filled(p, q).(pc := q.pc) && filled == Filled(q, filled)
    ensures Conclude(filled) == Conclude(Filled(p, Conclude(filled))) && Conclude(filled).got == filled.got
  {
    hide MarkProgressing, Marked, MarkReady, Agrees;
  }

  /** How a pass has ended: nothing left but to write its status back, and return what it returns. */
  ghost predicate Ended(p: Pass, q: Pass, obj: Kro, requeue: int, failed: bool) {
    && q.obj == obj && q.snapshot == p.snapshot && q.config == p.config
    && q == Close(q, if failed then Outcome(0, true) else Outcome(if requeue > 0 then requeue else Poll(q), false))
  }

  lemma ResolvingStartsInstallation(p: Pass, a: Answer)
    requires p.mode == Creating
    ensures var q := AfterResolveNamespace(p, a); var r := Versions.Resolve(p.config, p.obj.version);
      && (!a.Ok? ==> Ended(p, q, p.obj, 0, true))
      && (a.Ok? && r.Failure? ==>
            Ended(p, q, MarkProgressing(p.obj, p.now, RECONCILE_ERROR, Versions.Describe(r.error)), 0, false))
      && (a.Ok? && r.Success? ==>
            q == p.(version := r.value, pc := q.pc) && At(q, Plan(p.key, r.value, p.ctx)))
  {
    hide MarkProgressing, Marked, Plan, Conclude;
    if Versions.Resolve(p.config, p.obj.version).Success? {
      PlanIsNotEmpty(p.key, Versions.Resolve(p.config, p.obj.version).value, p.ctx);
    }
  }

  lemma FailingEnds(p: Pass, filled: Pass, message: string)
    requires filled == Filled(p, filled)
    ensures Ended(p, FailProgressing(filled, message), MarkProgressing(p.obj, p.now, RECONCILE_ERROR, message), 0, true)
  {
    hide MarkProgressing, Marked;
  }

  lemma ConcludingEnds(p: Pass, filled: Pass, oci: seq<Condition>, crds: seq<Condition>, main: seq<Condition>)
    requires filled == Filled(p, filled) && filled.got == p.got[Oci := oci][Crds := crds][Main := main]
    ensures var r := Conclude(filled);
      var reported := p.obj.(status := p.obj.status.(resources := ReportedResources(Tenant(p.key), oci, main, crds)));
      var ready := ResourceStatus(oci).0 == Ready && ResourceStatus(main).0 == Ready && ResourceStatus(crds).0 == Ready;
      Ended(p, r, if ready then MarkReady(reported, p.now)
        else MarkProgressing(reported, p.now, "Reconciling", "Waiting for managed resources to become ready"), 0, false)
  {
    hide MarkProgressing, MarkReady, Marked, Agrees, ReportedResources, ResourceStatus, SaysReady;
    StatusesTell(oci);
    StatusesTell(crds);
    StatusesTell(main);
    assert Conditions(filled, Oci) == oci && Conditions(filled, Crds) == crds && Conditions(filled, Main) == main;
  }

  lemma StatusesTell(cs: seq<Condition>)
    ensures ResourceStatus(cs).0 == Ready <==> SaysReady(cs)
  {
    ResourceStatusTells(RefOf(Oci, PodNamespace), cs);
  }

  /** Ending well from a later state of a pass that has the same snapshot and config is ending well. */
  lemma LaterEnds(p: Pass, later: Pass, q: Pass, obj: Kro, requeue: int, failed: bool)
    requires later.snapshot == p.snapshot && later.config == p.config && Ended(later, q, obj, requeue, failed)
    ensures Ended(p, q, obj, requeue, failed)
  {
  }
}
