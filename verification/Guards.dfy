/**
 What the trace of a single pass tells: deletion is guarded by the ResourceGraphDefinition count, an
 object counts as gone only if its own Get said so, and access is revoked only after that.
 */
module Guards {
  import opened Resources
  import opened Passes
  import opened Worlds
  import opened Operator
  import opened Traces
  import Safety

  /** Calls that take something away from the tenant. */
  predicate Destructive(c: Call) { c.pc.DeleteObject? || c.pc.RevokeAccess? || c.pc.RemoveFinalizer? }

  /** The call gives up the guard: nothing listed, or no handle to list with. */
  predicate Opens(c: Call) {
    || (c.pc.CountRGDs? && NoneListed(c.answer))
    || (c.pc.ReconcileAccess? && c.answer.Delay? && c.answer.seconds > 0)
    || (c.pc == GetCluster(MCP) && c.answer == GotCluster(false))
  }

  /** The call finds ResourceGraphDefinitions, or cannot tell. */
  predicate Blocks(c: Call) { c.pc.CountRGDs? && !NoneListed(c.answer) }

  ghost predicate Opened(t: seq<Call>) { exists j :: 0 <= j < |t| && Opens(t[j]) }

  ghost predicate Harmless(t: seq<Call>) {
    forall i :: 0 <= i < |t| ==> !Destructive(t[i])
  }

  ghost predicate Unblocked(t: seq<Call>) {
    forall i :: 0 <= i < |t| ==> !Blocks(t[i])
  }

  /** Every deletion request comes after a call that opened the guard. */
  ghost predicate DeletionsGuarded(t: seq<Call>) {
    forall i :: 0 <= i < |t| && t[i].pc.DeleteObject? ==> Opened(t[..i])
  }

  /** The pass has not yet reached the deletion of anything. */
  predicate Early(pc: Pc) {
    !pc.DeleteObject? && !pc.ConfirmGone? && !pc.RevokeAccess? && !pc.RemoveFinalizer?
      && !pc.PatchStatus? && !pc.Done?
  }

  /** The answers the ConfirmGone calls got, in order. */
  function Confirmations(t: seq<Call>): seq<Answer> {
    if t == [] then []
    else Confirmations(t[..|t| - 1]) + (if t[|t| - 1].pc.ConfirmGone? then [t[|t| - 1].answer] else [])
  }

  predicate AllNotFound(answers: seq<Answer>) {
    forall a <- answers :: a.NotFound?
  }

  /** Some access request was found gone or being deleted. */
  ghost predicate AccessLost(t: seq<Call>) {
    exists j :: 0 <= j < |t| && t[j].pc.CheckRequest? && RequestLost(t[j].answer)
  }

  ghost predicate Revoked(t: seq<Call>) { exists j :: 0 <= j < |t| && t[j].pc.RevokeAccess? }

  ghost predicate Guarded(p: Pass, t: seq<Call>) {
    && (p.pc.GetCluster? || p.pc.GetRequest? ==> p.delay == 0)
    && (p.pc.GetRequest? || p.pc == GetCluster(Workload) ==> p.ctx.mcp)
    && DeletionsGuarded(t)
    && (p.pc.DeleteObject? || p.pc.ConfirmGone? ==> Opened(t))
    && (p.pc.ResolveNamespace? && p.mode != Creating && !p.ctx.mcp ==> Opened(t))
    && (Early(p.pc) ==> Harmless(t))
    && (!Leaving(p) ==> Unblocked(t))
    && (!Unblocked(t) ==> Harmless(t))
  }

  /** The loop of Delete: `lingering` sums up the answers so far, and only a clean sweep goes on. */
  ghost predicate Sweeping(p: Pass, t: seq<Call>) {
    var cs := Confirmations(t);
    && (Early(p.pc) ==> cs == [])
    && (p.pc.DeleteObject? ==> |cs| == p.pc.i < 3 && (p.lingering <==> !AllNotFound(cs)))
    && (p.pc.ConfirmGone? ==> |cs| == p.pc.i < 3 && (p.lingering <==> !AllNotFound(cs)))
    && (p.pc.RevokeAccess? || p.pc.RemoveFinalizer? ==>
          (|cs| == 3 && AllNotFound(cs)) || (cs == [] && AccessLost(t)))
    && |cs| <= 3
    && (|cs| == 3 && AllNotFound(cs) && (p.pc.RemoveFinalizer? || Leaving(p)) ==> Revoked(t))
  }

  lemma AppendKeepsPast(t: seq<Call>, c: Call)
    ensures Opened(t) || Opens(c) ==> Opened(t + [c])
    ensures AccessLost(t) || (c.pc.CheckRequest? && RequestLost(c.answer)) ==> AccessLost(t + [c])
    ensures Revoked(t) || c.pc.RevokeAccess? ==> Revoked(t + [c])
    ensures DeletionsGuarded(t) && (c.pc.DeleteObject? ==> Opened(t)) ==> DeletionsGuarded(t + [c])
    ensures Confirmations(t + [c]) == Confirmations(t) + if c.pc.ConfirmGone? then [c.answer] else []
  {
    var u := t + [c];
    assert u[..|t|] == t && u[|t|] == c;
    if Opened(t) {
      var j :| 0 <= j < |t| && Opens(t[j]);
      assert Opens(u[j]);
    }
    if AccessLost(t) {
      var j :| 0 <= j < |t| && t[j].pc.CheckRequest? && RequestLost(t[j].answer);
      assert u[j].pc.CheckRequest?;
    }
    if Revoked(t) {
      var j :| 0 <= j < |t| && t[j].pc.RevokeAccess?;
      assert u[j].pc.RevokeAccess?;
    }
    if DeletionsGuarded(t) && (c.pc.DeleteObject? ==> Opened(t)) {
      forall i | 0 <= i < |u| && u[i].pc.DeleteObject? ensures Opened(u[..i]) {
        if i < |t| { assert u[..i] == t[..i]; }
      }
    }
  }

  lemma FirstCallsKeepGuard(p: Pass, t: seq<Call>, a: Answer)
    requires Guarded(p, t) && NonNegative(a) && Beginning(p.pc)
    ensures Guarded(Passes.Step(p, a), t + [Call(p.pc, a)])
  {
    hide AfterGetKro, AfterPatchAnnotation, AfterLoadConfig, AfterGetForFinalizer, AfterUpdateFinalizer,
      AfterCheckRequest, AfterReconcileAccess, AfterGetCluster, AfterGetRequest, FailProgressing;
    hide Opened, AccessLost, Revoked, DeletionsGuarded, Confirmations;
    AppendKeepsPast(t, Call(p.pc, a));
    var c := Call(p.pc, a);
    var u := t + [c];
    assert Harmless(t) && !Destructive(c) ==> Harmless(u);
    assert Unblocked(t) && !Blocks(c) ==> Unblocked(u);
    match p.pc
    case GetKro =>
    case PatchAnnotation =>
    case LoadConfig =>
    case GetForFinalizer =>
    case RecreateKro =>
    case UpdateFinalizer =>
    case CheckRequest(_) =>
    case ReconcileAccess =>
    case GetCluster(_) =>
    case GetRequest(_) =>
  }

  lemma LastCallsKeepGuard(p: Pass, t: seq<Call>, a: Answer)
    requires Guarded(p, t) && !Beginning(p.pc)
    ensures Guarded(Passes.Step(p, a), t + [Call(p.pc, a)])
  {
    hide AfterResolveNamespace, AfterLook, AfterWrite, AfterCountRGDs, AfterDeleteObject, AfterConfirmGone,
      AfterRevokeAccess, AfterRemoveFinalizer, AfterPatchStatus;
    hide Opened, AccessLost, Revoked, DeletionsGuarded, Confirmations;
    AppendKeepsPast(t, Call(p.pc, a));
    var c := Call(p.pc, a);
    var u := t + [c];
    assert Harmless(t) && !Destructive(c) ==> Harmless(u);
    assert Unblocked(t) && !Blocks(c) ==> Unblocked(u);
    match p.pc
    case ResolveNamespace =>
    case Look(_, _) =>
    case Write(_, _, _) =>
    case CountRGDs =>
    case DeleteObject(_, _) =>
    case ConfirmGone(_, _) =>
    case RevokeAccess =>
    case RemoveFinalizer =>
    case PatchStatus(_) =>
    case Done(_) =>
  }

  lemma FirstCallsKeepSweep(p: Pass, t: seq<Call>, a: Answer)
    requires Guarded(p, t) && Sweeping(p, t) && NonNegative(a) && Beginning(p.pc)
    ensures Sweeping(Passes.Step(p, a), t + [Call(p.pc, a)])
  {
    hide AfterGetKro, AfterPatchAnnotation, AfterLoadConfig, AfterGetForFinalizer, AfterUpdateFinalizer,
      AfterCheckRequest, AfterReconcileAccess, AfterGetCluster, AfterGetRequest, FailProgressing;
    hide Opened, AccessLost, Revoked, DeletionsGuarded, Confirmations;
    AppendKeepsPast(t, Call(p.pc, a));
    match p.pc
    case GetKro =>
    case PatchAnnotation =>
    case LoadConfig =>
    case GetForFinalizer =>
    case RecreateKro =>
    case UpdateFinalizer =>
    case CheckRequest(_) =>
    case ReconcileAccess =>
    case GetCluster(_) =>
    case GetRequest(_) =>
  }

  lemma LastCallsKeepSweep(p: Pass, t: seq<Call>, a: Answer)
    requires Guarded(p, t) && Sweeping(p, t) && !Beginning(p.pc)
    ensures Sweeping(Passes.Step(p, a), t + [Call(p.pc, a)])
  {
    hide AfterResolveNamespace, AfterLook, AfterWrite, AfterCountRGDs, AfterDeleteObject, AfterConfirmGone,
      AfterRevokeAccess, AfterRemoveFinalizer, AfterPatchStatus;
    hide Opened, AccessLost, Revoked, DeletionsGuarded, Confirmations;
    AppendKeepsPast(t, Call(p.pc, a));
    match p.pc
    case ResolveNamespace =>
    case Look(_, _) =>
    case Write(_, _, _) =>
    case CountRGDs =>
    case DeleteObject(_, _) =>
    case ConfirmGone(_, _) =>
      var cs := Confirmations(t);
      assert forall i :: 0 <= i < |cs| ==> cs[i] == (cs + [a])[i];
      assert (cs + [a])[|cs|] == a;
    case RevokeAccess =>
    case RemoveFinalizer =>
    case PatchStatus(_) =>
    case Done(_) =>
  }

  lemma CallKeepsGuard(p: Pass, t: seq<Call>, a: Answer)
    requires Guarded(p, t) && Sweeping(p, t) && NonNegative(a)
    ensures Guarded(Passes.Step(p, a), t + [Call(p.pc, a)])
    ensures Sweeping(Passes.Step(p, a), t + [Call(p.pc, a)])
  {
    hide Passes.Step, Guarded, Sweeping;
    if Beginning(p.pc) {
      FirstCallsKeepGuard(p, t, a);
      FirstCallsKeepSweep(p, t, a);
    } else {
      LastCallsKeepGuard(p, t, a);
      LastCallsKeepSweep(p, t, a);
    }
  }

  /** A pass of this operator, started for some Kro, that has made the calls `t`. */
  lemma {:induction false} TracedIsGuarded(p: Pass, t: seq<Call>)
    requires Traced(p, t)
    ensures Guarded(p, t) && Sweeping(p, t)
    decreases |t|
  {
    hide Guarded, Sweeping, Passes.Step;
    if t == [] {
      FreshPassIsGuarded(p);
    } else {
      var last := |t| - 1;
      var before := After(Fresh(p), t[..last]);
      TracedPrefix(p, t);
      TracedIsGuarded(before, t[..last]);
      CallKeepsGuard(before, t[..last], t[last].answer);
      assert t == t[..last] + [t[last]];
    }
  }

  lemma FreshPassIsGuarded(p: Pass)
    requires p == Fresh(p)
    ensures Guarded(p, []) && Sweeping(p, [])
  {
  }

  /**
   The ResourceGraphDefinition guard, as a property of every trace: a managed object is asked to go
   only after the pass has seen an empty list or has no handle on the control plane, and a pass that
   sees a definition, or fails to list, takes nothing away: no deletion, no revocation, the finalizer stays.
   */
  lemma DeletionIsGuarded(s: System, k: Key, i: nat)
    requires Reachable(s) && k in s.passes
    requires i < |TraceOf(s, k)|
    ensures var t := TraceOf(s, k);
      && (t[i].pc.DeleteObject? ==> exists j :: 0 <= j < i && Opens(t[j]))
      && (Blocks(t[i]) ==> Harmless(t) && Leaving(s.passes[k]))
  {
    hide Reachable, Traced;
    ReachableIsTraced(s, k);
    var t := TraceOf(s, k);
    TracedIsGuarded(s.passes[k], t);
    if t[i].pc.DeleteObject? {
      assert Opened(t[..i]);
      var j :| 0 <= j < i && Opens(t[..i][j]);
      assert Opens(t[j]);
    }
  }

  /**
   Delete's loop is sound: access is revoked in a pass iff (where it got that far) all three objects
   answered their own Get with NotFound, or an access request was already lost when the pass began;
   a failed or positive Get never counts as gone. And since nobody recreates them, at that point all
   three are absent at the same time, although they were looked at one after the other.
   */
  lemma RevocationIsEarned(s: System, k: Key)
    requires Reachable(s) && k in s.passes
    ensures var p, t := s.passes[k], TraceOf(s, k); var cs := Confirmations(t);
      && (p.pc.RevokeAccess? || p.pc.RemoveFinalizer? ==>
            NoFlux(s.world, k) && ((|cs| == 3 && AllNotFound(cs)) || (cs == [] && AccessLost(t))))
      && (|cs| == 3 && Leaving(p) && AllNotFound(cs) ==> Revoked(t))
      && (|cs| == 3 && !AllNotFound(cs) ==> Leaving(p) && !p.pc.RevokeAccess?)
  {
    hide Reachable, Traced, AllNotFound;
    ReachableIsTraced(s, k);
    TracedIsGuarded(s.passes[k], TraceOf(s, k));
    hide Sweeping;
    Safety.ReachableIsSafe(s);
    assert Safety.SafeAt(s, k);
  }
}
