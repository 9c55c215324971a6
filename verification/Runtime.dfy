/**
 SPReconciler, the generic half of the operator, as the imperative code it is: one pass over one Kro,
 shown to follow the pass machine call by call from its first read to what it returns.
 */
module Runtime {
  import opened Wrappers
  import opened Resources
  import opened Statuses
  import opened Passes
  import opened Objects
  import opened Apis
  import opened Domain
  import Reports
  import opened Operator
  import Worlds

  class SPReconciler {
    const api: Api
    const now: nat
    const withWorkloadCluster: bool
    const domain: KroReconciler
    const providerConfig: ConfigPointer

    constructor (api: Api, now: nat, withWorkloadCluster: bool, providerConfig: ConfigPointer)
      ensures this.api == api && this.now == now && this.withWorkloadCluster == withWorkloadCluster
      ensures this.providerConfig == providerConfig
      ensures domain.api == api && domain.now == now && domain.needsWorkload == withWorkloadCluster
    {
      this.api, this.now, this.withWorkloadCluster := api, now, withWorkloadCluster;
      this.providerConfig := providerConfig;
      domain := new KroReconciler(api, now, withWorkloadCluster);
    }

    /** The code is where the machine is. */
    ghost predicate InStep()
      reads api
    {
      domain.api == api && domain.now == now && domain.needsWorkload == withWorkloadCluster && domain.InStep()
    }

    /** Is any access request gone, or on its way? Then access must not be renewed. */
    method AreAccessRequestsInDeletion() returns (lost: bool, ok: bool)
      requires InStep() && api.Current().pc == CheckRequest(MCP)
      modifies api
      ensures InStep()
      ensures var p := old(api.Current());
        api.Current() == if ok then p.(pc := if lost then RevokeAccess else ReconcileAccess)
          else FailProgressing(p, "failed to check access requests in deletion")
    {
      hide Api.Valid, FailProgressing;
      FailingIgnoresPc(api.Current(), "failed to check access requests in deletion");
      var a := api.CheckRequest(MCP);
      if RequestLost(a) {
        return true, true;
      } else if !a.GotRequest? {
        return false, false;
      }
      if withWorkloadCluster {
        a := api.CheckRequest(Workload);
        if RequestLost(a) {
          return true, true;
        } else if !a.GotRequest? {
          return false, false;
        }
      }
      return false, true;
    }

    /** The clusters the domain logic may use. Unless all are required, missing ones do not block. */
    method Clusters(requireAll: bool) returns (ctx: ClusterContext, wait: int, ok: bool)
      requires InStep() && api.Current().pc.ReconcileAccess? && api.Current().ctx == NO_CLUSTERS
      requires requireAll == (api.Current().mode == Creating)
      modifies api
      ensures InStep() && wait >= 0 && (!requireAll ==> wait == 0)
      ensures GotClusters(old(api.Current()), api.Current(), ctx, wait, ok)
    {
      hide Api.Valid, WithClusters, FailClusters, GotClusters;
      ghost var p := api.Current();
      ctx := NO_CLUSTERS;
      var a := api.ReconcileAccess();
      ReconcilingGetsClusters(p, a);
      if !a.Delay? {
        return ctx, 0, false;
      }
      if a.seconds > 0 {
        return ctx, if requireAll then a.seconds else 0, true;
      }
      ghost var q := api.Current();
      var mcp := api.GetCluster(MCP);
      ControlPlaneGetsClusters(p, q, mcp);
      if !mcp.GotCluster? {
        return ctx, 0, false;
      }
      if !mcp.present {
        return ctx, if requireAll then 10 else 0, true;
      }
      ctx := ctx.(mcp := true);
      q := api.Current();
      var request := api.GetRequest(MCP);
      RequestGetsClusters(p, q, MCP, request);
      if !request.GotRequest? {
        return ctx, 0, false;
      }
      ctx := ctx.(mcpSecret := SecretName(request.request));
      if !withWorkloadCluster {
        return ctx, 0, true;
      }
      ctx, wait, ok := WorkloadCluster(ctx, requireAll, p);
    }

    /** The optional part of it. */
    method WorkloadCluster(filled: ClusterContext, requireAll: bool, ghost p: Pass)
      returns (ctx: ClusterContext, wait: int, ok: bool)
      requires InStep() && api.Current() == p.(pc := GetCluster(Workload), ctx := filled, delay := 0)
      requires requireAll == (api.Current().mode == Creating)
      modifies api
      ensures InStep() && wait >= 0 && (!requireAll ==> wait == 0)
      ensures GotClusters(p, api.Current(), ctx, wait, ok)
    {
      hide Api.Valid, WithClusters, FailClusters, GotClusters;
      ctx := filled;
      ghost var q := api.Current();
      var workload := api.GetCluster(Workload);
      WorkloadGetsClusters(p, q, workload);
      if !workload.GotCluster? {
        return ctx, 0, false;
      }
      if !workload.present {
        return ctx, if requireAll then 10 else 0, true;
      }
      ctx := ctx.(workload := true);
      q := api.Current();
      var request := api.GetRequest(Workload);
      RequestGetsClusters(p, q, Workload, request);
      if !request.GotRequest? {
        return ctx, 0, false;
      }
      ctx := ctx.(workloadSecret := SecretName(request.request));
      return ctx, 0, true;
    }

    // ---------- delete ----------

    /** The end of delete: give up access, then the finalizer. */
    method GiveUpAccess(obj: KroObject) returns (requeue: int, failed: bool)
      requires InStep() && api.Current().pc.RevokeAccess? && api.Current().obj == obj.View()
      modifies api, obj, obj.conditions
      ensures InStep() && (obj.conditions == old(obj.conditions) || fresh(obj.conditions))
      ensures Ended(old(api.Current()), api.Current(), obj.View(), requeue, failed)
    {
      hide KroObject.View, KroObject.Cells, Api.Valid, AfterRevokeAccess, AfterRemoveFinalizer, Ended,
        MarkTerminatingWithReason, Marked;
      ghost var p := api.Current();
      var a := api.RevokeAccess();
      RevokingEnds(p, a);
      if !a.Delay? {
        obj.StatusTerminatingWithReason(now, RECONCILE_ERROR, "failed cluster access reconcile delete");
        return 0, true;
      }
      // while access lasts the object has to
      if a.seconds > 0 {
        return a.seconds, false;
      }
      obj.RemoveFinalizer();
      ghost var q := api.Current();
      var b := api.RemoveFinalizer(obj);
      RemovingEnds(p, q, b);
      if !b.GotKro? {
        obj.StatusTerminatingWithReason(now, RECONCILE_ERROR, "failed to remove finalizer");
        return 0, true;
      }
      obj.Decode(b.kro);
      return 0, false;
    }

    /** The domain's part of a deletion, with whatever clusters there are. */
    method DeleteManaged(obj: KroObject) returns (requeue: int, failed: bool)
      requires InStep() && api.Current().pc.ReconcileAccess? && api.Current().obj == obj.View()
      requires api.Current().mode == Deleting && api.Current().ctx == NO_CLUSTERS
      modifies api, obj, obj.conditions
      ensures InStep() && (obj.conditions == old(obj.conditions) || fresh(obj.conditions))
      ensures if failed || requeue > 0 then Ended(old(api.Current()), api.Current(), obj.View(), requeue, failed)
        else Unended(old(api.Current()), api.Current(), obj.View()) && api.Current().pc.RevokeAccess?
    {
      hide KroObject.View, Api.Valid, WithClusters, Ended, TornDown, MarkTerminatingWithReason, MarkTerminating, Marked;
      ghost var p := api.Current();
      var ctx, wait, ok := Clusters(false);
      if !ok {
        obj.StatusTerminatingWithReason(now, RECONCILE_ERROR, "cluster cleanup error");
        MissingClustersEnd(p, p.(ctx := api.Current().ctx, delay := api.Current().delay));
        return 0, true;
      }
      ghost var q := p.(ctx := ctx, delay := wait);
      GettingClustersGoesOn(q);
      requeue, failed := domain.Delete(obj, ctx);
      TornDownEnds(p, WithClusters(q), api.Current(), obj.View(), requeue, failed);
    }

    /** delete: the managed objects go first, unless access is being given up already. */
    method Delete(obj: KroObject) returns (requeue: int, failed: bool)
      requires InStep() && api.Current().pc == CheckRequest(MCP) && api.Current().obj == obj.View()
      requires api.Current().mode == Deleting && api.Current().ctx == NO_CLUSTERS
      modifies api, obj, obj.conditions
      ensures InStep() && (obj.conditions == old(obj.conditions) || fresh(obj.conditions))
      ensures Ended(old(api.Current()), api.Current(), obj.View(), requeue, failed)
    {
      hide KroObject.View, Api.Valid, FailProgressing, Ended, MarkProgressing, Marked;
      ghost var p := api.Current();
      var lost, ok := AreAccessRequestsInDeletion();
      if !ok {
        obj.StatusProgressing(now, RECONCILE_ERROR, "failed to check access requests in deletion");
        FailingProgressEnds(p, p, "failed to check access requests in deletion");
        return 0, true;
      }
      if !lost {
        ghost var q := api.Current();
        requeue, failed := DeleteManaged(obj);
        if failed || requeue > 0 {
          LaterEnds(p, q, api.Current(), obj.View(), requeue, failed);
          return;
        }
      }
      ghost var r := api.Current();
      requeue, failed := GiveUpAccess(obj);
      LaterEnds(p, r, api.Current(), obj.View(), requeue, failed);
    }

    // ---------- createOrUpdate ----------

    /** controllerutil.CreateOrUpdate with AddFinalizer: read again, and write if the finalizer was missing. */
    method AddFinalizer(obj: KroObject) returns (ok: bool)
      requires InStep() && api.Current().pc.GetForFinalizer? && api.Current().obj == obj.View()
      modifies api, obj
      ensures InStep() && (obj.conditions == old(obj.conditions) || fresh(obj.conditions))
      ensures var p := old(api.Current());
        if ok then api.Current() == p.(pc := ReconcileAccess, obj := obj.View())
        else api.Current() == FailProgressing(p.(obj := obj.View()), "failed to add finalizer")
    {
      hide KroObject.View, KroObject.Cells, Api.Valid, FailProgressing, Without, OperationIn, Passes.Step, MovesOn,
        Shows, WritesBack;
      FailingIgnoresPc(api.Current(), "failed to add finalizer");
      var a := api.GetForUpdate();
      if a.NotFound? {
        var _ := obj.AddFinalizer();
        FailingIgnoresPc(api.Current(), "failed to add finalizer");
        var _ := api.Create(obj);
        return false;
      } else if !a.GotKro? {
        return false;
      }
      obj.Decode(a.kro);
      var added := obj.AddFinalizer();
      ok := true;
      if added {
        FailingIgnoresPc(api.Current(), "failed to add finalizer");
        ok := StoreFinalizer(obj);
      }
    }

    /** The write half of it: the server returns the object as it has stored it. */
    method StoreFinalizer(obj: KroObject) returns (ok: bool)
      requires InStep() && api.Current().pc.UpdateFinalizer? && api.Current().obj == obj.View()
      modifies api, obj
      ensures InStep() && (obj.conditions == old(obj.conditions) || fresh(obj.conditions))
      ensures var p := old(api.Current());
        if ok then api.Current() == p.(pc := ReconcileAccess, obj := obj.View())
        else obj.View() == old(obj.View()) && api.Current() == FailProgressing(p, "failed to add finalizer")
    {
      hide KroObject.View, KroObject.Cells, Api.Valid, FailProgressing, OperationIn, Passes.Step, MovesOn, Shows,
        WritesBack;
      var b := api.UpdateFinalizer(obj);
      if !b.GotKro? {
        return false;
      }
      obj.Decode(b.kro);
      return true;
    }

    /** createOrUpdate: finalizer, access, and then the domain logic. */
    method CreateOrUpdate(obj: KroObject, config: ConfigObject) returns (requeue: int, failed: bool)
      requires InStep() && api.Current().pc.GetForFinalizer? && api.Current().obj == obj.View()
      requires api.Current().mode == Creating && api.Current().ctx == NO_CLUSTERS
      requires config.Valid() && api.Current().config == Some(config.View())
      requires api !in config.Repr && obj !in config.Repr && obj.conditions !in config.Repr
      modifies api, obj, obj.conditions, config.Repr
      ensures InStep() && (obj.conditions == old(obj.conditions) || fresh(obj.conditions))
      ensures Ended(old(api.Current()), api.Current(), obj.View(), requeue, failed)
      ensures config.Valid() && Content(config.pollInterval) == old(Content(config.pollInterval))
    {
      hide KroObject.View, Api.Valid, WithClusters, FailProgressing, FailClusters, Ended, MarkProgressing, Marked,
        ConfigObject.View, ConfigObject.Valid, Passes.Step, Stays, Leaves, MovesOn, Shows, Accesses, WritesBack;
      ghost var p := api.Current();
      var added := AddFinalizer(obj);
      ghost var q := p.(obj := obj.View());
      if !added {
        obj.StatusProgressing(now, RECONCILE_ERROR, "failed to add finalizer");
        FailingProgressEnds(p, q, "failed to add finalizer");
        return 0, true;
      }
      ghost var r := api.Current();
      requeue, failed := CreateWithAccess(obj, config);
      LaterEnds(p, r, api.Current(), obj.View(), requeue, failed);
    }

    /** The rest of it: access, and the domain logic once everything is there. */
    method CreateWithAccess(obj: KroObject, config: ConfigObject) returns (requeue: int, failed: bool)
      requires InStep() && api.Current().pc.ReconcileAccess? && api.Current().obj == obj.View()
      requires api.Current().mode == Creating && api.Current().ctx == NO_CLUSTERS
      requires config.Valid() && api.Current().config == Some(config.View())
      requires api !in config.Repr && obj !in config.Repr && obj.conditions !in config.Repr
      modifies api, obj, obj.conditions, config.Repr
      ensures InStep() && (obj.conditions == old(obj.conditions) || fresh(obj.conditions))
      ensures Ended(old(api.Current()), api.Current(), obj.View(), requeue, failed)
      ensures config.Valid() && Content(config.pollInterval) == old(Content(config.pollInterval))
    {
      hide KroObject.View, Api.Valid, WithClusters, FailProgressing, FailClusters, Ended, MarkProgressing, Marked,
        ConfigObject.View, ConfigObject.Valid, Passes.Step, Stays, Leaves, MovesOn, Shows, Accesses, WritesBack;
      ghost var r := api.Current();
      var ctx, wait, ok := Clusters(true);
      if !ok {
        obj.StatusProgressing(now, RECONCILE_ERROR, "cluster setup error");
        MissingClustersEnd(r, r.(ctx := api.Current().ctx, delay := api.Current().delay));
        return 0, true;
      }
      ghost var t := r.(ctx := ctx, delay := wait);
      SettingUpGoesOn(r, t);
      if wait > 0 {
        return wait, false;
      }
      failed := domain.CreateOrUpdate(obj, config, ctx);
      LaterEnds(r, WithClusters(t), api.Current(), obj.View(), 0, failed);
      return 0, failed;
    }

    // ---------- Reconcile ----------

    /** updateStatus: write the status back iff it differs from what it was; a missing object is no error. */
    method UpdateStatus(obj: KroObject, oldObj: KroObject, ghost r: Outcome) returns (failed: bool)
      requires InStep() && api.Current() == Close(api.Current(), r) && api.Current().obj == obj.View()
      requires oldObj.View().status == api.Current().snapshot
      modifies api
      ensures InStep() && api.Current().pc == Done(if failed then r.(failed := true) else r)
      ensures obj.View().status == oldObj.View().status ==> api.Current() == old(api.Current())
      ensures api.Current().config == old(api.Current()).config && api.Current().epoch == old(api.Current()).epoch
    {
      hide Api.Valid;
      var same := obj.SameStatus(oldObj);
      if same {
        return false;
      }
      var a := api.PatchStatus(obj, oldObj, r);
      return !a.Ok? && !a.NotFound?;
    }

    /**
     What Reconcile does once the status has been copied: load the config, branch, decide when to come back.
     Whatever becomes of the copy, the cached config stands for the value that was loaded.
     */
    method ReconcileLoaded(obj: KroObject) returns (r: Outcome)
      requires InStep() && api.Current().pc.LoadConfig? && api.Current().obj == obj.View()
      requires api.Current().ctx == NO_CLUSTERS
      requires api.Synced(providerConfig) && providerConfig.Apart({obj} + Cell(obj.conditions))
      modifies api, providerConfig, obj, obj.conditions
      ensures providerConfig.Holds(api.Current().config) && providerConfig.Apart({api})
      ensures InStep() && (obj.conditions == old(obj.conditions) || fresh(obj.conditions))
      ensures api.Current().snapshot == old(api.Current()).snapshot && api.Current().obj == obj.View()
      ensures api.Current() == Close(api.Current(), r)
    {
      hide KroObject.View, Api.Valid, AfterLoadConfig, Ended, Close, MarkProgressing, Marked, ConfigObject.View,
        ConfigObject.Valid;
      ghost var p := api.Current();
      var config, epoch := api.LoadConfig(providerConfig);
      LoadingBegins(p, if config == null then None else Some(config.View()), epoch);
      if config == null {
        obj.StatusProgressing(now, RECONCILE_ERROR, "No ProviderConfig found");
        return Outcome(0, true);
      }
      var copy := config.DeepCopy();
      ghost var q := api.Current();
      var requeue, failed := Dispatch(obj, copy);
      EndingCloses(q, api.Current(), obj.View(), requeue, failed);
      if failed {
        return Outcome(0, true);
      }
      if requeue > 0 {
        return Outcome(requeue, false);
      }
      // nothing to wait for: come back when the config says so
      var interval := copy.PollInterval();
      return Outcome(interval, false);
    }

    /** The core of it: delete or createOrUpdate. */
    method Dispatch(obj: KroObject, config: ConfigObject) returns (requeue: int, failed: bool)
      requires InStep() && api.Current().obj == obj.View() && api.Current().ctx == NO_CLUSTERS
      requires api.Current().mode == if obj.View().deleting then Deleting else Creating
      requires api.Current().pc == if obj.View().deleting then CheckRequest(MCP) else GetForFinalizer
      requires config.Valid() && api.Current().config == Some(config.View())
      requires api !in config.Repr && obj !in config.Repr && obj.conditions !in config.Repr
      modifies api, obj, obj.conditions, config.Repr
      ensures InStep() && (obj.conditions == old(obj.conditions) || fresh(obj.conditions))
      ensures Ended(old(api.Current()), api.Current(), obj.View(), requeue, failed)
      ensures config.Valid() && Content(config.pollInterval) == old(Content(config.pollInterval))
    {
      hide Api.Valid, Ended, ConfigObject.View, ConfigObject.Valid;
      if obj.deleting {
        requeue, failed := Delete(obj);
      } else {
        requeue, failed := CreateOrUpdate(obj, config);
      }
    }

    /** The start of Reconcile: the object, its annotations heeded, or the outcome if there is nothing to do. */
    method Fetch() returns (obj: KroObject, done: bool, r: Outcome)
      requires InStep() && api.Current() == StartPass(api.key, now, withWorkloadCluster)
      requires api.Synced(providerConfig)
      modifies api
      ensures InStep() && fresh(obj) && (obj.conditions != null ==> fresh(obj.conditions))
      ensures api.Synced(providerConfig)
      ensures if done then api.Current().pc == Done(r) && api.Current().epoch.None?
        else Fetched(old(api.Current()), api.Current(), obj.View())
    {
      hide Api.Valid, ConfigObject.View, ConfigObject.Valid, KroObject.View, ConfigPointer.Holds, Passes.Step,
        MovesOn, Stays, Leaves, OperationIn, AfterGetKro, Shows;
      obj := new KroObject();
      ghost var p := api.Current();
      var a := api.Get();
      if !a.GotKro? {
        GettingFetches(p, a);
        return obj, true, Outcome(0, !a.NotFound?);
      }
      obj.Decode(a.kro);
      obj, done, r := Heed(p, obj);
    }

    /** What the operation annotation asks for comes first: nothing at all, or a pass that consumes it. */
    method Heed(ghost p: Pass, read: KroObject) returns (obj: KroObject, done: bool, r: Outcome)
      requires InStep() && api.Current() == AfterGetKro(p, GotKro(read.View())) && p.epoch.None?
      requires api.Synced(providerConfig)
      modifies api
      ensures InStep() && (obj == read || (fresh(obj) && (obj.conditions != null ==> fresh(obj.conditions))))
      ensures api.Synced(providerConfig)
      ensures if done then api.Current().pc == Done(r) && api.Current().epoch.None?
        else Fetched(p, api.Current(), obj.View())
    {
      hide Api.Valid, ConfigObject.View, ConfigObject.Valid, KroObject.View, ConfigPointer.Holds, Passes.Step,
        MovesOn, Stays, Leaves, Keeps, OperationIn, AfterGetKro, Shows;
      GettingFetches(p, GotKro(read.View()));
      obj, done, r := read, false, Outcome(0, false);
      var op := obj.GetOperation();
      if op == Ignore {
        done := true;
      } else if op == ReconcileNow {
        var ok: bool;
        obj, ok := ConsumeTrigger(obj);
        done, r := !ok, Outcome(0, !ok);
      }
    }

    /** Asked for by hand, once: the annotation is taken off a copy, and the difference sent as a patch. */
    method ConsumeTrigger(obj: KroObject) returns (patched: KroObject, ok: bool)
      requires InStep() && api.Current().pc.PatchAnnotation? && api.Current().obj == obj.View()
      requires obj.View().op == ReconcileNow && api.Synced(providerConfig)
      modifies api
      ensures InStep() && fresh(patched) && (patched.conditions != null ==> fresh(patched.conditions))
      ensures api.Synced(providerConfig)
      ensures if ok then Fetched(old(api.Current()), api.Current(), patched.View())
        else api.Current() == old(api.Current()).(pc := Done(Outcome(0, true)))
    {
      hide Api.Valid, ConfigObject.View, ConfigObject.Valid, KroObject.View, ConfigPointer.Holds, Passes.Step,
        MovesOn, Stays, Leaves, Keeps, OperationIn, Shows, WritesBack;
      patched := obj.WithoutOperation();
      var a := api.PatchAnnotation(patched, obj);
      ok := a.GotKro?;
      if ok {
        patched.Decode(a.kro);
      }
    }

    /**
     One pass, from the request for a key to the outcome for the work queue. When it returns, the cached config
     stands for what was loaded; and if the finalizer is gone, nothing is left behind.
     */
    method Reconcile() returns (r: Outcome)
      requires InStep() && api.Current() == StartPass(api.key, now, withWorkloadCluster)
      requires api.Synced(providerConfig)
      modifies api, providerConfig
      ensures InStep() && api.Current().pc == Done(r)
      ensures api.Current().epoch.Some? ==> providerConfig.Holds(api.Current().config)
      ensures LeavesNothing(api)
    {
      hide Api.Valid, LeavesNothing, Close, ConfigObject.View, ConfigObject.Valid, KroObject.View;
      var obj, done, early := Fetch();
      if done {
        NothingIsLeft(api);
        return early;
      }
      var oldObj := obj.DeepCopy();
      r := ReconcileLoaded(obj);
      var failed := UpdateStatus(obj, oldObj, r);
      if failed {
        r := r.(failed := true);
      }
      NothingIsLeft(api);
    }
  }

  lemma NothingIsLeft(api: Api)
    requires api.Valid()
    ensures LeavesNothing(api)
  {
    hide Reports.Released, Worlds.NoFlux, Worlds.NoRequests;
    Reports.NothingIsLeftWhenReleased(api.sys, api.key);
  }

  /** If the pass has had the finalizer removed, no Flux object and no access request of the Kro exists. */
  ghost predicate LeavesNothing(api: Api)
    reads api
  {
    Reports.Released(TraceOf(api.sys, api.key)) ==>
      Worlds.NoFlux(api.sys.world, api.key) && Worlds.NoRequests(api.sys.world, api.key)
  }

  /** The object has been read, and its status noted. */
  ghost predicate Fetched(p: Pass, q: Pass, obj: Kro) {
    q == p.(pc := LoadConfig, obj := obj, snapshot := obj.status)
  }

  lemma GettingFetches(p: Pass, a: Answer)
    requires p.epoch.None?
    ensures var q := AfterGetKro(p, a);
      && Keeps(p, q)
      && (!a.GotKro? ==> q == p.(pc := Done(Outcome(0, !a.NotFound?))))
      && (a.GotKro? && a.kro.op == Ignore ==> q == p.(pc := Done(Outcome(0, false))))
      && (a.GotKro? && a.kro.op == ReconcileNow ==> q == p.(obj := a.kro, pc := PatchAnnotation))
      && (a.GotKro? && a.kro.op == NoOperation ==> Fetched(p, q, a.kro))
  {
  }

  /** The pass goes on, with the object where the machine has it. */
  ghost predicate Unended(p: Pass, q: Pass, obj: Kro) {
    q.obj == obj && q.snapshot == p.snapshot && q.config == p.config
  }

  lemma RevokingEnds(p: Pass, a: Answer)
    ensures var q := AfterRevokeAccess(p, a);
      && (!a.Delay? ==>
            Ended(p, q, MarkTerminatingWithReason(p.obj, p.now, RECONCILE_ERROR,
              "failed cluster access reconcile delete"), 0, true))
      && (a.Delay? && a.seconds > 0 ==> Ended(p, q, p.obj, a.seconds, false))
      && (a.Delay? && a.seconds <= 0 ==> q == p.(obj := p.obj.(finalizer := false), pc := RemoveFinalizer))
  {
    hide MarkTerminatingWithReason, Marked;
  }

  lemma RemovingEnds(p: Pass, q: Pass, a: Answer)
    requires q.snapshot == p.snapshot && q.config == p.config
    ensures var r := AfterRemoveFinalizer(q, a);
      if a.GotKro? then Ended(p, r, a.kro, 0, false)
      else Ended(p, r, MarkTerminatingWithReason(q.obj, q.now, RECONCILE_ERROR, "failed to remove finalizer"), 0, true)
  {
    hide MarkTerminatingWithReason, Marked;
  }

  lemma MissingClustersEnd(p: Pass, q: Pass)
    requires q.snapshot == p.snapshot && q.config == p.config && q.obj == p.obj && q.now == p.now
    ensures var obj := if q.mode == Creating then MarkProgressing(p.obj, p.now, RECONCILE_ERROR, "cluster setup error")
      else MarkTerminatingWithReason(p.obj, p.now, RECONCILE_ERROR, "cluster cleanup error");
      Ended(p, FailClusters(q), obj, 0, true)
  {
    hide MarkTerminatingWithReason, MarkProgressing, Marked;
  }

  lemma GettingClustersGoesOn(p: Pass)
    requires p.mode == Deleting && p.delay == 0
    ensures WithClusters(p) == p.(obj := MarkTerminating(p.obj, p.now), pc := ResolveNamespace)
  {
    hide MarkTerminating, Marked;
  }

  lemma FailingProgressEnds(p: Pass, q: Pass, message: string)
    requires q.snapshot == p.snapshot && q.config == p.config
    ensures Ended(p, FailProgressing(q, message), MarkProgressing(q.obj, q.now, RECONCILE_ERROR, message), 0, true)
  {
    hide MarkProgressing, Marked;
  }

  lemma TornDownEnds(p: Pass, q: Pass, r: Pass, obj: Kro, requeue: int, failed: bool)
    requires q.snapshot == p.snapshot && q.config == p.config && TornDown(q, r, obj, requeue, failed)
    ensures failed || requeue > 0 ==> Ended(p, r, obj, requeue, failed)
    ensures !failed && requeue <= 0 ==> Unended(p, r, obj) && r.pc.RevokeAccess?
  {
  }

  /** From `p` the pass got as far as clusters() goes: to what its caller does with its results. */
  ghost predicate GotClusters(p: Pass, q: Pass, ctx: ClusterContext, wait: int, ok: bool) {
    q == if ok then WithClusters(p.(ctx := ctx, delay := wait)) else FailClusters(p.(ctx := q.ctx, delay := q.delay))
  }

  lemma WithClustersIgnoresPc(p: Pass, pc: Pc)
    ensures WithClusters(p.(pc := pc)) == WithClusters(p)
  {
    hide MarkProgressing, MarkTerminating, Marked, Agrees;
  }

  lemma FailClustersIgnoresPc(p: Pass, pc: Pc)
    ensures FailClusters(p.(pc := pc)) == FailClusters(p)
  {
    hide MarkProgressing, MarkTerminatingWithReason, Marked, Agrees;
  }

  lemma ClustersIgnorePc(p: Pass)
    ensures forall pc :: WithClusters(p.(pc := pc)) == WithClusters(p) && FailClusters(p.(pc := pc)) == FailClusters(p)
  {
    hide WithClusters, FailClusters;
    forall pc ensures WithClusters(p.(pc := pc)) == WithClusters(p) && FailClusters(p.(pc := pc)) == FailClusters(p) {
      WithClustersIgnoresPc(p, pc);
      FailClustersIgnoresPc(p, pc);
    }
  }

  lemma ReconcilingGetsClusters(p: Pass, a: Answer)
    requires a.Delay? ==> a.seconds >= 0
    ensures var q := AfterReconcileAccess(p, a);
      && (!a.Delay? ==> GotClusters(p, q, p.ctx, 0, false))
      && (a.Delay? && a.seconds > 0 ==> GotClusters(p, q, p.ctx, if p.mode == Creating then a.seconds else 0, true))
      && (a == Delay(0) ==> q == p.(delay := 0, pc := GetCluster(MCP)))
  {
    hide WithClusters, FailClusters;
    ClustersIgnorePc(p);
  }

  lemma ControlPlaneGetsClusters(p: Pass, q: Pass, a: Answer)
    requires q == p.(delay := 0, pc := GetCluster(MCP))
    ensures var r := AfterGetCluster(q, MCP, a);
      && (!a.GotCluster? ==> GotClusters(p, r, p.ctx, 0, false))
      && (a == GotCluster(false) ==> GotClusters(p, r, p.ctx, if p.mode == Creating then 10 else 0, true))
      && (a == GotCluster(true) ==> r == p.(delay := 0, ctx := p.ctx.(mcp := true), pc := GetRequest(MCP)))
  {
    hide WithClusters;
    ClustersIgnorePc(p.(delay := 0));
    ClustersIgnorePc(p.(delay := 10));
  }

  lemma WorkloadGetsClusters(p: Pass, q: Pass, a: Answer)
    requires q == p.(delay := 0, ctx := q.ctx, pc := GetCluster(Workload))
    ensures var r := AfterGetCluster(q, Workload, a);
      && (!a.GotCluster? ==> GotClusters(p, r, q.ctx, 0, false))
      && (a == GotCluster(false) ==> GotClusters(p, r, q.ctx, if p.mode == Creating then 10 else 0, true))
      && (a == GotCluster(true) ==> r == p.(delay := 0, ctx := q.ctx.(workload := true), pc := GetRequest(Workload)))
  {
    hide WithClusters;
    ClustersIgnorePc(p.(delay := 0, ctx := q.ctx));
    ClustersIgnorePc(p.(delay := 10, ctx := q.ctx));
  }

  lemma RequestGetsClusters(p: Pass, q: Pass, c: ClusterKind, a: Answer)
    requires q == p.(delay := 0, ctx := q.ctx, pc := GetRequest(c))
    ensures var r := AfterGetRequest(q, c, a);
      && (!a.GotRequest? ==> GotClusters(p, r, q.ctx, 0, false))
      && (a.GotRequest? && c == MCP ==>
            var ctx := q.ctx.(mcpSecret := SecretName(a.request));
            if p.needsWorkload then r == p.(delay := 0, ctx := ctx, pc := GetCluster(Workload))
            else GotClusters(p, r, ctx, 0, true))
      && (a.GotRequest? && c == Workload ==>
            GotClusters(p, r, q.ctx.(workloadSecret := SecretName(a.request)), 0, true))
  {
    hide WithClusters, SecretName;
    ClustersIgnorePc(p.(delay := 0, ctx := q.ctx));
    if a.GotRequest? {
      ClustersIgnorePc(p.(delay := 0, ctx := q.ctx.(mcpSecret := SecretName(a.request))));
      ClustersIgnorePc(p.(delay := 0, ctx := q.ctx.(workloadSecret := SecretName(a.request))));
    }
  }

  lemma SettingUpGoesOn(p: Pass, q: Pass)
    requires p.mode == Creating && q == p.(ctx := q.ctx, delay := q.delay)
    ensures q.delay > 0 ==> Ended(p, WithClusters(q), p.obj, q.delay, false)
    ensures var started := MarkProgressing(p.obj, p.now, "Reconciling", "Reconcile in progress");
      q.delay <= 0 ==> WithClusters(q) == q.(obj := started, pc := ResolveNamespace)
  {
    hide MarkProgressing, Marked;
  }

  lemma LoadingBegins(p: Pass, config: Option<ProviderConfig>, epoch: nat)
    ensures var q := AfterLoadConfig(p, Loaded(config, epoch));
      && (config.None? ==>
            && q.obj == MarkProgressing(p.obj, p.now, RECONCILE_ERROR, "No ProviderConfig found")
            && q.snapshot == p.snapshot && q == Close(q, Outcome(0, true)) && Keeps(p, q))
      && (config.Some? ==>
            q == p.(config := config, epoch := Some(epoch),
                    mode := if p.obj.deleting then Deleting else Creating,
                    pc := if p.obj.deleting then CheckRequest(MCP) else GetForFinalizer))
  {
    hide MarkProgressing, Marked;
  }

  lemma EndingCloses(p: Pass, q: Pass, obj: Kro, requeue: int, failed: bool)
    requires Ended(p, q, obj, requeue, failed)
    ensures q.snapshot == p.snapshot && q.config == p.config && q.obj == obj
    ensures q == Close(q, if failed then Outcome(0, true)
      else if requeue > 0 then Outcome(requeue, false) else Outcome(Poll(p), false))
  {
  }
}
