/**
 The phase a pass leaves behind, read off its trace: the call that ended the pass and its answer decide it.
 From this follows when a Kro that is being deleted is reported as Terminating, and when the status of one
 that is being installed is brought up to date.
 */
module Phases {
  import opened Wrappers
  import opened Resources
  import opened Flux
  import opened Passes
  import opened Operator
  import opened Traces
  import opened Verdicts
  import Guards
  import Reports
  import Statuses

  // ---------- what a trace tells ----------

  predicate Closes(pc: Pc) { pc.PatchStatus? || pc.Done? }

  /** The last call before the status is written back. */
  function Deciding(t: seq<Call>): Option<Call> {
    if t == [] then None
    else if Closes(t[|t| - 1].pc) then Deciding(t[..|t| - 1])
    else Some(t[|t| - 1])
  }

  /** Calls that answer with the Kro. */
  predicate Reads(pc: Pc) {
    pc.GetKro? || pc.PatchAnnotation? || pc.GetForFinalizer? || pc.UpdateFinalizer? || pc.RemoveFinalizer?
  }

  /** The Kro as the server last returned it to the pass. */
  function LastRead(t: seq<Call>): Option<Kro> {
    if t == [] then None
    else if Reads(t[|t| - 1].pc) && t[|t| - 1].answer.GotKro? then Some(t[|t| - 1].answer.kro)
    else LastRead(t[..|t| - 1])
  }

  /** The pass found the Kro to be deleted. */
  ghost predicate TakesDown(t: seq<Call>) { exists c <- t :: c.pc.CheckRequest? }

  ghost predicate SeenReady(t: seq<Call>, which: Which) {
    LastFlux(t, which).Some? && SaysReady(LastFlux(t, which).value.conditions)
  }

  /** The phase that a finished pass leaves, if the last call `c` of its trace `t` decides it. */
  ghost function Reported(t: seq<Call>, c: Call, read: InstancePhase): InstancePhase {
    match c.pc
    case ReconcileAccess => if TakesDown(t) then Terminating else if c.answer.Delay? then read else Progressing
    case GetCluster(_) => if TakesDown(t) then Terminating else if c.answer.GotCluster? then read else Progressing
    case GetRequest(_) => if TakesDown(t) then Terminating else Progressing
    case ResolveNamespace => if TakesDown(t) then Terminating else Progressing
    case Look(_, _) => Installed(t, c)
    case Write(_, _, _) => Installed(t, c)
    case CountRGDs => Terminating
    case DeleteObject(_, _) => Terminating
    case ConfirmGone(_, _) => Terminating
    case RevokeAccess =>
      if !c.answer.Delay? then Terminating else if Guards.AccessLost(t) then read else Ready
    case RemoveFinalizer => if c.answer.GotKro? then read else Terminating
    case _ => Progressing
  }

  /** The plan was carried out to its end, and every object came back ready. */
  ghost function Installed(t: seq<Call>, c: Call): InstancePhase {
    if Returned(c, Main) && (forall which :: SeenReady(t, which)) then Ready else Progressing
  }

  lemma AppendTells(t: seq<Call>, c: Call)
    ensures Deciding(t + [c]) == if Closes(c.pc) then Deciding(t) else Some(c)
    ensures LastRead(t + [c]) == if Reads(c.pc) && c.answer.GotKro? then Some(c.answer.kro) else LastRead(t)
    ensures TakesDown(t + [c]) <==> TakesDown(t) || c.pc.CheckRequest?
    ensures Guards.AccessLost(t + [c]) <==>
      Guards.AccessLost(t) || (c.pc.CheckRequest? && RequestLost(c.answer))
    ensures Reports.HasEntered(t + [c]) <==> Reports.HasEntered(t) || c.pc.ResolveNamespace?
    ensures Reports.Loads(t + [c]) <==> Reports.Loads(t) || c.pc.LoadConfig?
  {
    var u := t + [c];
    assert u[..|u| - 1] == t && u[|t|] == c;
    assert forall d <- u :: d in t || d == c;
    assert forall d <- t :: d in u;
    assert forall j :: 0 <= j < |t| ==> u[j] == t[j];
  }

  // ---------- what the pass knows at each call ----------

  /** From the read of the Kro until the domain logic is called. */
  predicate Waiting(pc: Pc) {
    pc.LoadConfig? || pc.GetForFinalizer? || pc.RecreateKro? || pc.UpdateFinalizer? || pc.CheckRequest?
      || pc.ReconcileAccess? || pc.GetCluster? || pc.GetRequest?
  }

  predicate Removing(pc: Pc) { pc.CountRGDs? || pc.DeleteObject? || pc.ConfirmGone? }

  predicate Releasing(pc: Pc) { pc.RevokeAccess? || pc.RemoveFinalizer? }

  /** The status in memory is as the server returned it. */
  ghost predicate Untold(p: Pass, t: seq<Call>) {
    LastRead(t).Some?
      && p.obj.status == LastRead(t).value.status && p.obj.generation == LastRead(t).value.generation
  }

  ghost predicate ModeIsTold(p: Pass, t: seq<Call>) {
    && (p.pc.GetKro? || p.pc.PatchAnnotation? || p.pc.LoadConfig? ==> p.mode == Undecided)
    && (p.pc.GetForFinalizer? || p.pc.RecreateKro? || p.pc.UpdateFinalizer? || AtTask(p) ==> p.mode == Creating)
    && (p.pc.CheckRequest? || Removing(p.pc) || Releasing(p.pc) ==> p.mode == Deleting)
    && (p.mode == Undecided ==> p.pc.GetKro? || p.pc.PatchAnnotation? || p.pc.LoadConfig? || Leaving(p))
    && (p.mode != Undecided ==> Reports.Loads(t))
    && (p.mode != Deleting ==> !TakesDown(t))
    && (p.mode == Deleting && p.pc != CheckRequest(MCP) ==> TakesDown(t))
  }

  ghost predicate Telling(p: Pass, t: seq<Call>) {
    && ModeIsTold(p, t)
    && (Guards.AccessLost(t) ==> Releasing(p.pc) || Leaving(p))
    && (p.pc.GetCluster? || p.pc.GetRequest? ==> p.delay == 0)
    && (Waiting(p.pc) ==> Untold(p, t) && !Reports.HasEntered(t))
    && (p.pc.GetKro? || p.pc.PatchAnnotation? ==> !Reports.Loads(t) && !Reports.HasEntered(t))
    && (p.pc.ResolveNamespace? ==> Shows(p, Working(p.mode)))
    && (p.pc.ResolveNamespace? ==> !Reports.HasEntered(t))
    && (AtTask(p) ==> Shows(p, Progressing) && Reports.HasEntered(t))
    && (Removing(p.pc) ==> Shows(p, Terminating))
    && (Releasing(p.pc) ==> if Guards.AccessLost(t) then Untold(p, t) else Shows(p, Ready))
    && (!p.pc.GetKro? && !Leaving(p) ==> LastRead(t).Some?)
    && (Leaving(p) && Reports.Loads(t) ==> Told(p, t))
  }

  /** Calls that may tell a pass to wait for access. */
  predicate Awaits(pc: Pc) { pc.ReconcileAccess? || pc.GetCluster? }

  ghost predicate Told(p: Pass, t: seq<Call>) {
    && LastRead(t).Some? && Deciding(t).Some?
    && (Removing(Deciding(t).value.pc) || Releasing(Deciding(t).value.pc) ==> TakesDown(t))
    && Shows(p, Reported(t, Deciding(t).value, LastRead(t).value.status.phase))
    && (Succeeds(p) && p.mode == Creating ==>
          if Awaits(Deciding(t).value.pc) then !Reports.HasEntered(t) && Untold(p, t)
          else Reports.HasEntered(t) && p.obj.status.observedGeneration == p.obj.generation)
  }

  // ---------- call by call ----------

  lemma FirstCallsTell(p: Pass, t: seq<Call>, a: Answer)
    requires Telling(p, t) && NonNegative(a)
    requires p.pc.GetKro? || p.pc.PatchAnnotation? || p.pc.LoadConfig? || p.pc.GetForFinalizer?
      || p.pc.RecreateKro? || p.pc.UpdateFinalizer?
    ensures Telling(Passes.Step(p, a), t + [Call(p.pc, a)])
  {
    hide AfterGetKro, AfterPatchAnnotation, AfterLoadConfig, AfterGetForFinalizer, AfterUpdateFinalizer,
      AfterCheckRequest, AfterReconcileAccess, AfterGetCluster, AfterGetRequest, FailProgressing;
    hide Deciding, LastRead, TakesDown, Guards.AccessLost, Reports.HasEntered, Reports.Loads, Installed;
    AppendTells(t, Call(p.pc, a));
    match p.pc
    case GetKro =>
    case PatchAnnotation =>
    case LoadConfig =>
    case GetForFinalizer =>
    case RecreateKro =>
    case UpdateFinalizer =>
  }

  lemma AccessCallsTell(p: Pass, t: seq<Call>, a: Answer)
    requires Telling(p, t) && NonNegative(a)
    requires p.pc.CheckRequest? || p.pc.ReconcileAccess? || p.pc.GetCluster? || p.pc.GetRequest?
    ensures Telling(Passes.Step(p, a), t + [Call(p.pc, a)])
  {
    hide AfterGetKro, AfterPatchAnnotation, AfterLoadConfig, AfterGetForFinalizer, AfterUpdateFinalizer,
      AfterCheckRequest, AfterReconcileAccess, AfterGetCluster, AfterGetRequest, FailProgressing;
    hide Deciding, LastRead, TakesDown, Guards.AccessLost, Reports.HasEntered, Reports.Loads, Installed;
    AppendTells(t, Call(p.pc, a));
    match p.pc
    case CheckRequest(_) =>
    case ReconcileAccess =>
    case GetCluster(_) =>
    case GetRequest(_) =>
  }

  lemma RemovalCallsTell(p: Pass, t: seq<Call>, a: Answer)
    requires Telling(p, t)
    requires p.pc.ResolveNamespace? || Removing(p.pc) || Releasing(p.pc)
    ensures Telling(Passes.Step(p, a), t + [Call(p.pc, a)])
  {
    hide AfterResolveNamespace, AfterCountRGDs, AfterDeleteObject, AfterConfirmGone, AfterRevokeAccess,
      AfterRemoveFinalizer;
    hide Deciding, LastRead, TakesDown, Guards.AccessLost, Reports.HasEntered, Reports.Loads, Installed;
    AppendTells(t, Call(p.pc, a));
    match p.pc
    case ResolveNamespace =>
    case CountRGDs =>
    case DeleteObject(_, _) =>
    case ConfirmGone(_, _) =>
    case RevokeAccess =>
    case RemoveFinalizer =>
  }

  lemma TasksTell(p: Pass, t: seq<Call>, a: Answer)
    requires Telling(p, t) && AtTask(p) && Tracking(p, t)
    ensures Telling(Passes.Step(p, a), t + [Call(p.pc, a)])
  {
    hide AfterLook, AfterWrite, Deciding, LastRead, TakesDown, Guards.AccessLost, Reports.HasEntered, Reports.Loads,
      Installed, Tracking, Statuses.Agrees, AllReady, Desired;
    AppendTells(t, Call(p.pc, a));
    if Leaving(Passes.Step(p, a)) { EndingTells(p, t, a); }
  }

  /** The plan ends well iff its last task, the main release, came back; then all objects are in the report. */
  lemma EndingTells(p: Pass, t: seq<Call>, a: Answer)
    requires AtTask(p) && Tracking(p, t) && Leaving(Passes.Step(p, a))
    ensures Shows(Passes.Step(p, a), Installed(t + [Call(p.pc, a)], Call(p.pc, a)))
  {
    TasksAreTracked(p, t, a);
    hide AfterLook, AfterWrite, Statuses.Agrees, LastFlux, Desired, Untouched, SaysReady;
    RestIsProper(p.pc.task, p.pc.rest);
    hide Proper;
    var q, c := Passes.Step(p, a), Call(p.pc, a);
    assert Succeeds(q) <==> Returned(c, Main);
    if Succeeds(q) { AllReadyIsSeen(q, t + [c]); }
  }

  /** What a pass reports of its objects is what it saw. */
  lemma AllReadyIsSeen(p: Pass, t: seq<Call>)
    requires Tracking(p, t) && Succeeds(p)
    ensures AllReady(p) <==> forall which :: SeenReady(t, which)
  {
    hide LastFlux;
    forall which ensures SaysReady(Conditions(p, which)) <==> SeenReady(t, which) {
    }
    if AllReady(p) {
      forall which ensures SeenReady(t, which) {
        match which case Oci => case Main => case Crds =>
      }
    }
  }

  lemma ClosingTells(p: Pass, t: seq<Call>, a: Answer)
    requires Telling(p, t) && Leaving(p)
    ensures Telling(Passes.Step(p, a), t + [Call(p.pc, a)])
  {
    hide Deciding, LastRead, TakesDown, Guards.AccessLost, Reports.HasEntered, Reports.Loads, LastFlux, SaysReady;
    AppendTells(t, Call(p.pc, a));
    if Reports.Loads(t) {
      ClosingIsNotReported(t, Call(p.pc, a), Deciding(t).value, LastRead(t).value.status.phase);
    }
    hide Reported;
  }

  lemma ClosingIsNotReported(t: seq<Call>, c: Call, d: Call, read: InstancePhase)
    requires Closes(c.pc)
    ensures Reported(t + [c], d, read) == Reported(t, d, read)
  {
    hide TakesDown, Guards.AccessLost, LastFlux, SaysReady;
    AppendTells(t, c);
    forall which { AppendTouches(t, c, which); }
    assert forall which :: SeenReady(t + [c], which) <==> SeenReady(t, which);
  }

  lemma CallTells(p: Pass, t: seq<Call>, a: Answer)
    requires Telling(p, t) && Tracking(p, t) && NonNegative(a)
    ensures Telling(Passes.Step(p, a), t + [Call(p.pc, a)])
  {
    hide Telling, Tracking, Passes.Step;
    match p.pc
    case CheckRequest(_) => AccessCallsTell(p, t, a);
    case ReconcileAccess => AccessCallsTell(p, t, a);
    case GetCluster(_) => AccessCallsTell(p, t, a);
    case GetRequest(_) => AccessCallsTell(p, t, a);
    case ResolveNamespace => RemovalCallsTell(p, t, a);
    case CountRGDs => RemovalCallsTell(p, t, a);
    case DeleteObject(_, _) => RemovalCallsTell(p, t, a);
    case ConfirmGone(_, _) => RemovalCallsTell(p, t, a);
    case RevokeAccess => RemovalCallsTell(p, t, a);
    case RemoveFinalizer => RemovalCallsTell(p, t, a);
    case Look(_, _) => TasksTell(p, t, a);
    case Write(_, _, _) => TasksTell(p, t, a);
    case PatchStatus(_) => ClosingTells(p, t, a);
    case Done(_) => ClosingTells(p, t, a);
    case _ => FirstCallsTell(p, t, a);
  }

  lemma {:induction false} TracedTells(p: Pass, t: seq<Call>)
    requires Traced(p, t)
    ensures Telling(p, t)
    decreases |t|
  {
    hide Passes.Step, Telling;
    if t == [] {
      FreshTellsNothing(p);
    } else {
      var last := |t| - 1;
      var before := After(Fresh(p), t[..last]);
      TracedPrefix(p, t);
      TracedTells(before, t[..last]);
      TracedIsTracked(before, t[..last]);
      CallTells(before, t[..last], t[last].answer);
      assert t == t[..last] + [t[last]];
    }
  }

  lemma FreshTellsNothing(p: Pass)
    requires p == Fresh(p)
    ensures Telling(p, [])
  {
  }

  // ---------- all runs ----------

  /**
   In every run, the phase that a pass leaves behind is the one that the call which ended it decides,
   given what the pass had read and seen before.
   */
  lemma PhaseIsDecided(s: System, k: Key)
    requires Reachable(s) && k in s.passes && Leaving(s.passes[k]) && Reports.Loads(TraceOf(s, k))
    ensures var t := TraceOf(s, k);
      && Deciding(t).Some? && LastRead(t).Some?
      && s.passes[k].obj.status.phase == Reported(t, Deciding(t).value, LastRead(t).value.status.phase)
      && (Removing(Deciding(t).value.pc) || Releasing(Deciding(t).value.pc) ==> TakesDown(t))
  {
    hide Reachable, Traced, Reported, Deciding, LastRead;
    ReachableIsTraced(s, k);
    TracedTells(s.passes[k], TraceOf(s, k));
  }

  /**
   Of the calls that may end a pass over a Kro that is being deleted, those about its objects and its
   clusters leave it Terminating; not so the load of the config and the check of its access requests. Giving up
   access leaves it Terminating if that fails; if it is to be waited for, only if access had been lost and it
   was Terminating before; and removing the finalizer, if that fails or the server says so.
   */
  ghost predicate EndsTerminating(t: seq<Call>, c: Call, read: InstancePhase) {
    match c.pc
    case RevokeAccess => c.answer.Delay? ==> Guards.AccessLost(t) && read == Terminating
    case RemoveFinalizer => c.answer.GotKro? ==> read == Terminating
    case _ => Removing(c.pc) || c.pc.ResolveNamespace? || Awaits(c.pc) || c.pc.GetRequest?
  }

  /** A pass that saw no deletion leaves the Kro Terminating iff it read it so and merely waits for access. */
  ghost predicate StaysTerminating(c: Call, read: InstancePhase) {
    ((c.pc.ReconcileAccess? && c.answer.Delay?) || (c.pc.GetCluster? && c.answer.GotCluster?)) && read == Terminating
  }

  /**
   "A Kro that is being deleted is in phase Terminating" holds, when a pass is over, iff the call that ended the
   pass leaves it so; the answers that do not are listed in `EndsTerminating`.
   */
  lemma DeletingIsNotAlwaysTerminating(s: System, k: Key)
    requires Reachable(s) && k in s.passes && Leaving(s.passes[k]) && Reports.Loads(TraceOf(s, k))
    ensures var t := TraceOf(s, k);
      && Deciding(t).Some? && LastRead(t).Some?
      && var c, read := Deciding(t).value, LastRead(t).value.status.phase;
         s.passes[k].obj.status.phase == Terminating <==>
           if TakesDown(t) then EndsTerminating(t, c, read) else StaysTerminating(c, read)
  {
    hide Reachable, Deciding, LastRead, TakesDown, Guards.AccessLost, SeenReady, Installed;
    PhaseIsDecided(s, k);
    InstallingIsNotTerminating(TraceOf(s, k), Deciding(TraceOf(s, k)).value);
  }

  lemma InstallingIsNotTerminating(t: seq<Call>, c: Call)
    ensures Installed(t, c) != Terminating
  {
  }

  /**
   "A create pass that ends without error reports on the generation it saw" holds iff it got as far as the
   domain logic, or the status was up to date anyway: a pass that waits for access, which is the only other
   way to end without error, leaves the status as it read it, Ready included.
   */
  lemma PendingAccessKeepsStatus(s: System, k: Key)
    requires Reachable(s) && k in s.passes && s.passes[k].mode == Creating && Succeeds(s.passes[k])
    ensures var p, t := s.passes[k], TraceOf(s, k);
      && Deciding(t).Some? && LastRead(t).Some?
      && var read := LastRead(t).value;
         && (Reports.HasEntered(t) <==> !Awaits(Deciding(t).value.pc))
         && (!Reports.HasEntered(t) ==> p.obj.status == read.status && p.obj.generation == read.generation)
         && (p.obj.status.observedGeneration == p.obj.generation <==>
               Reports.HasEntered(t) || read.status.observedGeneration == read.generation)
  {
    hide Reachable, Traced, Reported, Deciding, LastRead, Reports.HasEntered;
    ReachableIsTraced(s, k);
    TracedTells(s.passes[k], TraceOf(s, k));
  }
}
