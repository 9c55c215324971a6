/** The status helpers, as functions on values; Objects.dfy holds the in-place versions. */
module Statuses {
  import opened Resources

  const READY := "Ready"
  const RECONCILE_ERROR := "ReconcileError"

  /** The position of the first condition of the given kind, or the length of the list. */
  function Find(cs: seq<Condition>, kind: string): (i: nat)
    ensures i <= |cs|
    ensures i < |cs| ==> cs[i].kind == kind
    ensures forall j :: 0 <= j < i ==> cs[j].kind != kind
  {
    if cs == [] || cs[0].kind == kind then 0
    else
      var rest := Find(cs[1..], kind);
      assert forall j :: 0 < j < 1 + rest ==> cs[j] == cs[1..][j - 1];
      1 + rest
  }

  /** An updated condition keeps its transition time unless its status changes. */
  function Merge(was: Condition, c: Condition, now: nat): Condition {
    c.(lastTransition := if was.status == c.status then was.lastTransition else now)
  }

  /** meta.SetStatusCondition: replace the condition of that kind, or append it. */
  function SetCondition(cs: seq<Condition>, c: Condition, now: nat): seq<Condition> {
    var i := Find(cs, c.kind);
    if i < |cs| then cs[i := Merge(cs[i], c, now)] else cs + [c.(lastTransition := now)]
  }

  function Mark(kro: Kro, now: nat, ready: ConditionStatus, reason: string, message: string,
    phase: InstancePhase): Kro {
    var c := Condition(READY, ready, kro.generation, reason, message, now);
    kro.(status := kro.status.(
      conditions := SetCondition(kro.status.conditions, c, now),
      observedGeneration := kro.generation,
      phase := phase))
  }

  ghost predicate OneReady(cs: seq<Condition>) {
    forall i, j :: 0 <= i < j < |cs| ==> !(cs[i].kind == READY && cs[j].kind == READY)
  }

  /** Conditions, phase and observed generation tell the same story. */
  ghost predicate Coherent(cs: seq<Condition>, phase: InstancePhase, observed: nat) {
    && OneReady(cs)
    && var i := Find(cs, READY);
       if i == |cs| then phase == Unset
       else (phase == Ready <==> cs[i].status == CondTrue) && cs[i].observedGeneration == observed
  }

  ghost predicate Agrees(st: Status) { Coherent(st.conditions, st.phase, st.observedGeneration) }

  lemma FindIsUnique(cs: seq<Condition>, kind: string, i: nat)
    requires i < |cs| && cs[i].kind == kind && forall j :: 0 <= j < i ==> cs[j].kind != kind
    ensures Find(cs, kind) == i
  {
  }

  /** Any helper turns any agreeing status into an agreeing one. */
  lemma MarkAgrees(kro: Kro, now: nat, ready: ConditionStatus, reason: string, message: string, phase: InstancePhase)
    requires phase != Unset && (phase == Ready <==> ready == CondTrue)
    ensures Agrees(kro.status) ==> Agrees(Mark(kro, now, ready, reason, message, phase).status)
  {
    var cs := kro.status.conditions;
    var i := Find(cs, READY);
    var c := Condition(READY, ready, kro.generation, reason, message, now);
    FindIsUnique(SetCondition(cs, c, now), READY, i);
  }

  /** And no other condition comes, goes or changes. */
  lemma MarkLeavesOthers(kro: Kro, now: nat, ready: ConditionStatus, reason: string, message: string,
      phase: InstancePhase)
    ensures forall d: Condition :: d.kind != READY ==>
      (d in kro.status.conditions <==> d in Mark(kro, now, ready, reason, message, phase).status.conditions)
  {
    var cs := kro.status.conditions;
    var ds := SetCondition(cs, Condition(READY, ready, kro.generation, reason, message, now), now);
    forall d: Condition | d.kind != READY
      ensures d in cs <==> d in ds
    {
      if d in cs {
        var j :| 0 <= j < |cs| && cs[j] == d;
        assert ds[j] == d;
      }
      if d in ds {
        var j :| 0 <= j < |ds| && ds[j] == d;
        assert cs[j] == d;
      }
    }
  }

  /**
   A helper touches the status alone, leaves the resources, sets the phase, notes the generation, and keeps
   the status coherent.
   */
  ghost predicate Marked(kro: Kro, r: Kro, phase: InstancePhase) {
    && r == kro.(status := r.status)
    && r.status.phase == phase && r.status.resources == kro.status.resources
    && r.status.observedGeneration == kro.generation
    && (Agrees(kro.status) ==> Agrees(r.status))
  }

  function MarkProgressing(kro: Kro, now: nat, reason: string, message: string): (r: Kro)
    ensures Marked(kro, r, Progressing)
  {
    MarkAgrees(kro, now, CondFalse, reason, message, Progressing);
    Mark(kro, now, CondFalse, reason, message, Progressing)
  }

  function MarkReady(kro: Kro, now: nat): (r: Kro)
    ensures Marked(kro, r, Ready)
  {
    MarkAgrees(kro, now, CondTrue, "ReconcileSuccess", "Domain Service is ready", Ready);
    Mark(kro, now, CondTrue, "ReconcileSuccess", "Domain Service is ready", Ready)
  }

  function MarkTerminating(kro: Kro, now: nat): (r: Kro)
    ensures Marked(kro, r, Terminating)
  {
    MarkTerminatingWithReason(kro, now, "Terminating", "Cleanup in progress")
  }

  function MarkTerminatingWithReason(kro: Kro, now: nat, reason: string, message: string): (r: Kro)
    ensures Marked(kro, r, Terminating)
  {
    MarkAgrees(kro, now, CondFalse, reason, message, Terminating);
    Mark(kro, now, CondFalse, reason, message, Terminating)
  }

  /**
   Ready set False and then True within one pass moves the transition time of a condition that was
   True all along: a steady-state pass changes the status it writes back.
   */
  lemma SteadyStateMovesTransitionTime(kro: Kro, now: nat, reason: string, message: string)
    ensures var after := MarkReady(MarkProgressing(kro, now, reason, message), now).status;
      var i := Find(after.conditions, READY);
      i < |after.conditions| && after.conditions[i].lastTransition == now
  {
    var cs := kro.status.conditions;
    var i := Find(cs, READY);
    var p := MarkProgressing(kro, now, reason, message);
    FindIsUnique(p.status.conditions, READY, i);
    var r := MarkReady(p, now);
    FindIsUnique(r.status.conditions, READY, i);
  }
}
