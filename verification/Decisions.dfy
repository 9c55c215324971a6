/**
 What the code decides on an answer, where it matters to a caller which of several things it does: how long to
 wait, what to report, and what to read next.
 */
module Decisions {
  import opened Wrappers
  import opened Resources
  import opened Flux
  import opened Passes
  import Statuses
  import Versions

  /** The pass ends without error and asks to come back in `n` seconds. */
  predicate Waits(q: Pass, n: int) { Leaving(q) && ResultOf(q) == Outcome(n, false) }

  /** Only a missing object and the ignore annotation end a pass at once; a trigger is consumed before anything else. */
  lemma AnnotationsDecide(p: Pass, a: Answer)
    ensures var q := AfterGetKro(p, a);
      && (Waits(q, 0) <==> a.NotFound? || (a.GotKro? && a.kro.op == Ignore))
      && (q.pc.PatchAnnotation? <==> a.GotKro? && a.kro.op == ReconcileNow)
      && (q.pc.LoadConfig? <==> a.GotKro? && a.kro.op == NoOperation)
      && (Fails(q) <==> !a.GotKro? && !a.NotFound?)
    ensures var q := AfterPatchAnnotation(p, a); if a.GotKro? then q.pc.LoadConfig? else Fails(q)
  {
  }

  /** A request that is missing or going costs the access; else the second one is looked at where there are two. */
  lemma RequestsDecide(p: Pass, c: ClusterKind, a: Answer)
    ensures var q := AfterCheckRequest(p, c, a);
      && (q.pc.RevokeAccess? <==> a.NotFound? || (a.GotRequest? && a.request.deleting))
      && (q.pc == CheckRequest(Workload) <==> a.GotRequest? && !a.request.deleting && c == MCP && p.needsWorkload)
      && (q.pc.ReconcileAccess? <==> a.GotRequest? && !a.request.deleting && !(c == MCP && p.needsWorkload))
  {
    hide FailProgressing;
  }

  /** A creation waits as long as the provider says, or ten seconds for a cluster. */
  lemma AccessDecides(p: Pass, c: ClusterKind, a: Answer)
    requires p.mode == Creating && p.delay == 0
    ensures a.Delay? && a.seconds > 0 ==> Waits(AfterReconcileAccess(p, a), a.seconds)
    ensures a == GotCluster(false) ==> Waits(AfterGetCluster(p, c, a), 10)
  {
    hide Statuses.MarkProgressing, Statuses.Agrees;
  }

  /** Handles and secret names are those of the cluster that was asked for, and no other. */
  lemma AnswersFillClusters(p: Pass, c: ClusterKind, a: Answer)
    requires p.delay == 0
    ensures a == GotCluster(true) ==>
      && AfterGetCluster(p, c, a).pc == GetRequest(c)
      && AfterGetCluster(p, c, a).ctx == if c == MCP then p.ctx.(mcp := true) else p.ctx.(workload := true)
    ensures a.GotRequest? ==>
      var name := match a.request.secretRef case None => "" case Some(n) => n;
      && AfterGetRequest(p, c, a).ctx ==
           (if c == MCP then p.ctx.(mcpSecret := name) else p.ctx.(workloadSecret := name))
      && (c == MCP && p.needsWorkload <==> AfterGetRequest(p, c, a).pc == GetCluster(Workload))
  {
    hide Statuses.MarkProgressing, Statuses.MarkTerminating, Statuses.Agrees, FailClusters;
  }

  /** The three objects are reported to be terminating. */
  ghost predicate ReportsTerminating(q: Pass) {
    var rs := q.obj.status.resources;
    && |rs| == 3 && (forall r <- rs :: r.phase == Terminating && r.message == "" && r.location == PlatformCluster)
    && rs[0].ref == FluxRef(OCIRepository, "kro-oci-repository", Tenant(q.key))
    && rs[1].ref == FluxRef(HelmRelease, "kro-helm-release", Tenant(q.key))
    && rs[2].ref == FluxRef(HelmRelease, "kro-mcp-crds-helm-release", Tenant(q.key))
  }

  /** Definitions block for ten seconds; none, or an unknown kind, begin the teardown; anything else is an error. */
  lemma DefinitionsDecide(p: Pass, a: Answer)
    ensures var q := AfterCountRGDs(p, a);
      && (q.pc.DeleteObject? <==> a == Counted(0) || a.NoSuchKind? || a.NotFound?)
      && (a.Counted? && a.n > 0 ==> Waits(q, 10))
      && (a.Counted? || a.NoSuchKind? || a.NotFound? ==> ReportsTerminating(q))
      && (Fails(q) <==> !a.Counted? && !a.NoSuchKind? && !a.NotFound?)
  {
    hide Statuses.MarkTerminatingWithReason, Statuses.Agrees, FailTerminating;
  }

  lemma SkippedGuardReports(p: Pass)
    ensures ReportsTerminating(BeginTeardown(p))
  {
  }

  /** After the third object: whatever lingers is looked at again in ten seconds; else nothing is left to report. */
  lemma AbsenceDecides(p: Pass, a: Answer)
    ensures var q := AfterConfirmGone(p, 2, a);
      && (p.lingering || !a.NotFound? ==> Waits(q, 10))
      && (!p.lingering && a.NotFound? ==> q.pc.RevokeAccess? && q.obj.status.resources == [] && Shows(q, Ready))
  {
    hide Statuses.Agrees;
  }

  /** Revocation takes as long as the provider says; once the finalizer is off, only the poll is left. */
  lemma RevocationDecides(p: Pass, a: Answer)
    ensures a.Delay? && a.seconds > 0 ==> Waits(AfterRevokeAccess(p, a), a.seconds)
    ensures a.GotKro? ==>
      Waits(AfterRemoveFinalizer(p, a), match p.config case None => 0 case Some(c) => Versions.PollInterval(c))
  {
    hide Statuses.MarkTerminatingWithReason, Statuses.Agrees;
  }

  /** A failed write of the status is an error whatever came before; one for an object that is gone is none. */
  lemma StatusWriteDecides(p: Pass, r: Outcome, a: Answer)
    ensures var q := AfterPatchStatus(p, r, a);
      ResultOf(q).failed <==> r.failed || (!a.Ok? && !a.NotFound?)
  {
  }

  // ---------- the condition that a pass leaves ----------

  /** The first Ready condition says so, at this generation. */
  ghost predicate Says(kro: Kro, ready: ConditionStatus, reason: string, message: string) {
    exists i: nat :: FirstReady(kro.status.conditions, i) && SaysAt(kro, i, ready, reason, message)
  }

  ghost predicate SaysAt(kro: Kro, i: nat, ready: ConditionStatus, reason: string, message: string) {
    && i < |kro.status.conditions|
    && var c := kro.status.conditions[i];
       c.status == ready && c.reason == reason && c.message == message && c.observedGeneration == kro.generation
  }

  lemma MarkSays(kro: Kro, now: nat, ready: ConditionStatus, reason: string, message: string, phase: InstancePhase)
    ensures Says(Statuses.Mark(kro, now, ready, reason, message, phase), ready, reason, message)
    ensures Statuses.Mark(kro, now, ready, reason, message, phase).generation == kro.generation
  {
    var i := Statuses.Find(kro.status.conditions, Statuses.READY);
    var marked := Statuses.Mark(kro, now, ready, reason, message, phase);
    assert FirstReady(marked.status.conditions, i) && SaysAt(marked, i, ready, reason, message);
  }

  /** The transition time is kept iff the status of the condition is. */
  lemma MarkKeepsTime(kro: Kro, now: nat, ready: ConditionStatus, reason: string, message: string,
      phase: InstancePhase, i: nat)
    requires FirstReady(kro.status.conditions, i)
    ensures var was, c := kro.status.conditions[i],
        Statuses.Mark(kro, now, ready, reason, message, phase).status.conditions[i];
      c.lastTransition == if was.status == ready then was.lastTransition else now
  {
    Statuses.FindIsUnique(kro.status.conditions, Statuses.READY, i);
  }

  /** What each helper says. */
  lemma HelpersSay(kro: Kro, now: nat, reason: string, message: string)
    ensures Says(Statuses.MarkProgressing(kro, now, reason, message), CondFalse, reason, message)
    ensures Says(Statuses.MarkReady(kro, now), CondTrue, "ReconcileSuccess", "Domain Service is ready")
    ensures Says(Statuses.MarkTerminating(kro, now), CondFalse, "Terminating", "Cleanup in progress")
    ensures Says(Statuses.MarkTerminatingWithReason(kro, now, reason, message), CondFalse, reason, message)
  {
    hide Says, Statuses.Mark;
    MarkSays(kro, now, CondFalse, reason, message, Progressing);
    MarkSays(kro, now, CondTrue, "ReconcileSuccess", "Domain Service is ready", Ready);
    MarkSays(kro, now, CondFalse, "Terminating", "Cleanup in progress", Terminating);
    MarkSays(kro, now, CondFalse, reason, message, Terminating);
  }

  /** A pass that fails says why. */
  lemma FailuresSay(p: Pass, message: string)
    ensures Says(FailProgressing(p, message).obj, CondFalse, "ReconcileError", message)
    ensures Says(FailTerminating(p, message).obj, CondFalse, "ReconcileError", message)
  {
    hide Says, Statuses.MarkProgressing, Statuses.MarkTerminatingWithReason;
    HelpersSay(p.obj, p.now, "ReconcileError", message);
  }

  /** A version that is not on offer is answered with the list of those that are. */
  lemma MissingVersionSays(p: Pass)
    requires Versions.Resolve(p.config, p.obj.version).Failure?
    ensures var e := Versions.Resolve(p.config, p.obj.version).error;
      Says(BeginCreate(p).obj, CondFalse, "ReconcileError", Versions.Describe(e))
  {
    hide Says, Statuses.MarkProgressing, Versions.Resolve, Versions.Describe;
    HelpersSay(p.obj, p.now, "ReconcileError", Versions.Describe(Versions.Resolve(p.config, p.obj.version).error));
  }

  /** What a creation says while it is at it, and a deletion that is held up by definitions. */
  lemma ProgressSays(p: Pass, n: nat)
    requires p.delay == 0
    ensures Says(WithClusters(p).obj, CondFalse, if p.mode == Creating then "Reconciling" else "Terminating",
      if p.mode == Creating then "Reconcile in progress" else "Cleanup in progress")
    ensures n > 0 ==> Says(AfterCountRGDs(p, Counted(n)).obj, CondFalse, "Terminating", BLOCKED_MESSAGE)
  {
    hide Statuses.MarkProgressing, Statuses.MarkTerminating, Statuses.MarkTerminatingWithReason, Statuses.Agrees;
    HelpersSay(p.obj, p.now, "Reconciling", "Reconcile in progress");
    HelpersSay(p.obj, p.now, "Terminating", BLOCKED_MESSAGE);
  }
}
