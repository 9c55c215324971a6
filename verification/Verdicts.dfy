/**
 What "Ready" is worth. A create pass reports the conditions its Flux calls returned; they are a verdict on
 the specs it wants iff it found each object with that spec and a Ready condition of that generation. An
 object that it had to write is never reported by a verdict on what was written.
 */
module Verdicts {
  import opened Resources
  import opened Wrappers
  import opened Flux
  import opened Passes
  import opened Worlds
  import opened Operator
  import opened Traces
  import Statuses
  import Reports

  /** The call is about the object `which`. */
  predicate Deals(pc: Pc, which: Which) { (pc.Look? || pc.Write?) && pc.task == PutFlux(which) }

  predicate Returned(c: Call, which: Which) { Deals(c.pc, which) && c.answer.GotFlux? }

  /** The object as the pass last got it back. */
  function LastFlux(t: seq<Call>, which: Which): Option<FluxObject> {
    if t == [] then None
    else if Returned(t[|t| - 1], which) then Some(t[|t| - 1].answer.flux)
    else LastFlux(t[..|t| - 1], which)
  }

  ghost predicate Untouched(t: seq<Call>, which: Which) { forall c <- t :: !Deals(c.pc, which) }

  lemma AppendTouches(t: seq<Call>, c: Call, which: Which)
    ensures LastFlux(t + [c], which) == if Returned(c, which) then Some(c.answer.flux) else LastFlux(t, which)
    ensures Untouched(t + [c], which) <==> Untouched(t, which) && !Deals(c.pc, which)
  {
    var u := t + [c];
    assert u[..|u| - 1] == t && u[|t|] == c;
    assert forall d <- t :: d in u;
    assert c in u;
  }

  // ---------- every object is dealt with once ----------

  /** Tasks that end with the main release and deal with no Flux object twice. */
  ghost predicate Proper(ts: seq<Task>) {
    && ts != [] && ts[|ts| - 1] == PutFlux(Main)
    && forall i, j :: 0 <= i < j < |ts| && ts[i].PutFlux? ==> ts[i] != ts[j]
  }

  ghost predicate WithoutFlux(ts: seq<Task>) { forall t <- ts :: !t.PutFlux? }

  lemma {:induction false} CopiesAreWithoutFlux(k: Key, names: seq<string>)
    ensures WithoutFlux(CopyImageSecrets(k, names))
  {
    if names != [] { CopiesAreWithoutFlux(k, names[1..]); }
  }

  lemma PrependingIsProper(us: seq<Task>, ts: seq<Task>)
    requires WithoutFlux(us) && Proper(ts)
    ensures Proper(us + ts)
    ensures forall which :: PutFlux(which) in us + ts <==> PutFlux(which) in ts
  {
  }

  lemma SecretsAreWithoutFlux(k: Key, v: KroVersion, ctx: ClusterContext)
    ensures WithoutFlux(ImageSecretTasks(k, ctx.workload, v.helmValues))
    ensures WithoutFlux(KubeconfigTasks(k, ctx)) && WithoutFlux(ChartSecretTasks(k, v.chartPullSecret))
  {
    if v.helmValues.Some? && v.helmValues.value.pullSecrets.Success? {
      CopiesAreWithoutFlux(k, v.helmValues.value.pullSecrets.value);
    }
  }

  lemma PlanIsProper(k: Key, v: KroVersion, ctx: ClusterContext)
    ensures Proper(Plan(k, v, ctx))
  {
    hide ChartSecretTasks, ImageSecretTasks, KubeconfigTasks, WithoutFlux;
    SecretsAreWithoutFlux(k, v, ctx);
    var images, kubeconfig := ImageSecretTasks(k, ctx.workload, v.helmValues), KubeconfigTasks(k, ctx);
    var chart := ChartSecretTasks(k, v.chartPullSecret);
    PrependingIsProper(kubeconfig, RELEASES);
    PrependingIsProper(images, kubeconfig + RELEASES);
    PrependingIsProper(chart, [PutFlux(Oci)] + (images + (kubeconfig + RELEASES)));
  }

  function Tail(p: Pass): seq<Task>
    requires AtTask(p)
  {
    [p.pc.task] + p.pc.rest
  }

  /** Each object is looked at when its turn comes, and what is kept for the report is what came back last. */
  ghost predicate Tracking(p: Pass, t: seq<Call>) {
    && (p.pc.Write? ==> Puts(p.pc.task))
    && (AtTask(p) ==>
          && Proper(Tail(p)) && (forall which <- p.got :: PutFlux(which) !in Tail(p))
          && forall which :: PutFlux(which) in p.pc.rest || (p.pc.Look? && Deals(p.pc, which)) ==> Untouched(t, which))
    && (!AtTask(p) && !Leaving(p) ==> p.got == map[] && forall which :: Untouched(t, which))
    && (!Fails(p) ==> forall which ::
          LastFlux(t, which).Some? ==> which in p.got || (p.pc.Write? && Deals(p.pc, which)))
    && forall which <- p.got ::
         LastFlux(t, which).Some? && LastFlux(t, which).value.conditions == p.got[which]
  }

  lemma RestIsProper(task: Task, rest: seq<Task>)
    requires Proper([task] + rest)
    ensures task.PutFlux? ==> task !in rest
    ensures rest != [] ==> Proper(rest)
    ensures rest == [] ==> task == PutFlux(Main)
  {
    var ts := [task] + rest;
    assert forall i :: 0 <= i < |rest| ==> rest[i] == ts[i + 1];
    assert ts[|ts| - 1] == PutFlux(Main);
    forall i, j | 0 <= i < j < |rest| && rest[i].PutFlux? ensures rest[i] != rest[j] {
      assert ts[i + 1] != ts[j + 1];
    }
    if task.PutFlux? {
      forall j | 0 <= j < |rest| ensures rest[j] != task { assert ts[0] != ts[j + 1]; }
    }
  }

  lemma TasksAreTracked(p: Pass, t: seq<Call>, a: Answer)
    requires AtTask(p) && Tracking(p, t)
    ensures Tracking(Passes.Step(p, a), t + [Call(p.pc, a)])
  {
    hide Tracking, AfterLook, AfterWrite;
    if p.pc.Look? { LookIsTracked(p, t, a); } else { WriteIsTracked(p, t, a); }
  }

  lemma LookIsTracked(p: Pass, t: seq<Call>, a: Answer)
    requires p.pc.Look? && Tracking(p, t)
    ensures Tracking(AfterLook(p, p.pc.task, p.pc.rest, a), t + [Call(p.pc, a)])
  {
    hide AfterLook, Statuses.Agrees, AllReady, LastFlux, Untouched, Proper, Desired, Concluded;
    forall which { AppendTouches(t, Call(p.pc, a), which); }
    RestIsProper(p.pc.task, p.pc.rest);
    var q := AfterLook(p, p.pc.task, p.pc.rest, a);
    if q.pc.Look? { assert Tail(q) == p.pc.rest; }
  }

  lemma WriteIsTracked(p: Pass, t: seq<Call>, a: Answer)
    requires p.pc.Write? && Tracking(p, t)
    ensures Tracking(AfterWrite(p, p.pc.task, p.pc.rest, a), t + [Call(p.pc, a)])
  {
    hide AfterWrite, Statuses.Agrees, AllReady, LastFlux, Untouched, Proper, Desired, Concluded;
    forall which { AppendTouches(t, Call(p.pc, a), which); }
    RestIsProper(p.pc.task, p.pc.rest);
    var q := AfterWrite(p, p.pc.task, p.pc.rest, a);
    if q.pc.Look? { assert Tail(q) == p.pc.rest; }
  }

  lemma BeginningIsTracked(p: Pass, t: seq<Call>, a: Answer)
    requires p.pc.ResolveNamespace? && Tracking(p, t)
    ensures Tracking(AfterResolveNamespace(p, a), t + [Call(p.pc, a)])
  {
    hide BeginTeardown, BeginCreate, Fail, Plan, Statuses.Agrees, AllReady, LastFlux, Untouched, Proper;
    forall which { AppendTouches(t, Call(p.pc, a), which); }
    var q := AfterResolveNamespace(p, a);
    if q.pc.Look? {
      PlanIsProper(q.key, q.version, q.ctx);
      assert Tail(q) == Plan(q.key, q.version, q.ctx);
    }
  }

  lemma OthersAreTracked(p: Pass, t: seq<Call>, a: Answer)
    requires !AtTask(p) && !p.pc.ResolveNamespace? && Tracking(p, t)
    ensures Tracking(Passes.Step(p, a), t + [Call(p.pc, a)])
  {
    hide Passes.Step, LastFlux, Untouched;
    forall which { AppendTouches(t, Call(p.pc, a), which); }
  }

  lemma CallIsTracked(p: Pass, t: seq<Call>, a: Answer)
    requires Tracking(p, t)
    ensures Tracking(Passes.Step(p, a), t + [Call(p.pc, a)])
  {
    hide Tracking;
    if AtTask(p) {
      hide Passes.Step;
      TasksAreTracked(p, t, a);
    } else if p.pc.ResolveNamespace? {
      BeginningIsTracked(p, t, a);
    } else {
      hide Passes.Step;
      OthersAreTracked(p, t, a);
    }
  }

  lemma FreshIsTracked(p: Pass)
    requires p == Fresh(p)
    ensures Tracking(p, [])
  {
  }

  lemma {:induction false} TracedIsTracked(p: Pass, t: seq<Call>)
    requires Traced(p, t)
    ensures Tracking(p, t)
    decreases |t|
  {
    hide Passes.Step, Tracking;
    if t == [] {
      FreshIsTracked(p);
    } else {
      var last := |t| - 1;
      var before := After(Fresh(p), t[..last]);
      TracedPrefix(p, t);
      TracedIsTracked(before, t[..last]);
      CallIsTracked(before, t[..last], t[last].answer);
      assert t == t[..last] + [t[last]];
    }
  }

  // ---------- generations ----------

  /** The object's Ready condition, if it has one, was observed at its present generation. */
  predicate Current(o: FluxObject) {
    var i := Statuses.Find(o.conditions, Statuses.READY);
    i < |o.conditions| && o.conditions[i].observedGeneration == o.generation
  }

  ghost predicate Observed(o: FluxObject) {
    forall i :: 0 <= i < |o.conditions| ==> o.conditions[i].observedGeneration <= o.generation
  }

  ghost predicate AllObserved(w: World) {
    forall ref <- w.flux :: Observed(w.flux[ref]) && w.flux[ref].rv <= w.clock
  }

  /** From `w` to `v`, every object that changed has a resource version it never had before. */
  ghost predicate Later(w: World, v: World) {
    && w.clock <= v.clock
    && forall ref <- v.flux :: (ref in w.flux && v.flux[ref] == w.flux[ref]) || v.flux[ref].rv > w.clock
  }

  lemma PuttingIsLater(w: World, ref: FluxRef, o: FluxObject)
    requires AllObserved(w) && Observed(o) && o.rv == w.clock + 1
    ensures var v := Tick(w.(flux := w.flux[ref := o])); Later(w, v) && AllObserved(v)
  {
  }

  lemma RemovingIsLater(w: World, ref: FluxRef)
    requires AllObserved(w)
    ensures var v := Tick(w.(flux := w.flux - {ref})); Later(w, v) && AllObserved(v)
  {
  }

  lemma SameFluxIsLater(w: World, v: World)
    requires AllObserved(w) && v.flux == w.flux && w.clock <= v.clock
    ensures Later(w, v) && AllObserved(v)
  {
  }

  lemma DeletionIsLater(w: World, ref: FluxRef)
    requires AllObserved(w)
    ensures Later(w, RequestDeletion(w, ref)) && AllObserved(RequestDeletion(w, ref))
  {
    hide Later, AllObserved;
    if ref !in w.flux {
      SameFluxIsLater(w, w);
    } else if w.flux[ref].held {
      StoredIsObserved(w, ref);
      PuttingIsLater(w, ref, Condemned(w.flux[ref], w.clock + 1));
    } else {
      RemovingIsLater(w, ref);
    }
  }

  lemma StoredIsObserved(w: World, ref: FluxRef)
    requires AllObserved(w) && ref in w.flux
    ensures Observed(w.flux[ref]) && w.flux[ref].rv <= w.clock
  {
  }

  lemma EnvironmentIsLater(w: World, e: Env)
    requires Permitted(w, e) && AllObserved(w)
    ensures Later(w, Act(w, e)) && AllObserved(Act(w, e))
  {
    hide Later, AllObserved, PutKro, RequestDeletion;
    match e
    case FluxReports(ref, cs) =>
      PuttingIsLater(w, ref, w.flux[ref].(conditions := cs, rv := w.clock + 1));
    case FluxHolds(ref) =>
      StoredIsObserved(w, ref);
      PuttingIsLater(w, ref, w.flux[ref].(held := true, rv := w.clock + 1));
    case FluxReleases(ref) =>
      StoredIsObserved(w, ref);
      PuttingIsLater(w, ref, w.flux[ref].(held := false, rv := w.clock + 1));
      RemovingIsLater(w, ref);
    case SomeoneForges(ref, spec) =>
      StoredIsObserved(w, ref);
      PuttingIsLater(w, ref, Respecified(w.flux[ref], spec, w.clock + 1));
    case SomeoneDeletes(ref) => DeletionIsLater(w, ref);
    case _ => KrosLeaveFlux(w, e); SameFluxIsLater(w, Act(w, e));
  }

  lemma KrosLeaveFlux(w: World, e: Env)
    requires Permitted(w, e)
    requires !e.FluxReports? && !e.FluxHolds? && !e.FluxReleases? && !e.SomeoneForges? && !e.SomeoneDeletes?
    ensures Act(w, e).flux == w.flux && w.clock <= Act(w, e).clock
  {
  }

  lemma WriteIsLater(w: World, p: Pass, task: Task, a: Answer)
    requires AllObserved(w)
    ensures Later(w, EffectOfWrite(w, p, task, a)) && AllObserved(EffectOfWrite(w, p, task, a))
  {
    hide Later, AllObserved, Desired;
    if task.PutFlux? && !a.Failed? {
      var ref := RefOf(task.which, Tenant(p.key));
      if ref in w.flux { StoredIsObserved(w, ref); }
      PuttingIsLater(w, ref, Written(w, p, task.which));
    } else {
      SameFluxIsLater(w, EffectOfWrite(w, p, task, a));
    }
  }

  lemma EffectIsLater(w: World, p: Pass, a: Answer, h: Hidden)
    requires AllObserved(w)
    ensures Later(w, Effect(w, p, a, h)) && AllObserved(Effect(w, p, a, h))
  {
    hide Later, AllObserved, EffectOfWrite, RequestDeletion, Effect;
    match p.pc
    case Write(task, _, _) => WriteIsLater(w, p, task, a);
    case DeleteObject(_, ref) =>
      DeletionIsLater(w, ref);
      SameFluxIsLater(w, w);
      DeletionsDelete(w, p, a, h);
    case _ => OthersLeaveFlux(w, p, a, h); SameFluxIsLater(w, Effect(w, p, a, h));
  }

  lemma DeletionsDelete(w: World, p: Pass, a: Answer, h: Hidden)
    requires p.pc.DeleteObject?
    ensures Effect(w, p, a, h) == if a.Ok? then RequestDeletion(w, p.pc.ref) else w
  {
    hide RequestDeletion;
  }

  lemma OthersLeaveFlux(w: World, p: Pass, a: Answer, h: Hidden)
    requires !p.pc.Write? && !p.pc.DeleteObject?
    ensures Effect(w, p, a, h).flux == w.flux && w.clock <= Effect(w, p, a, h).clock
  {
  }

  // ---------- what a pass saw ----------

  /** The pass looked at the object and found the spec it wants. */
  ghost predicate FoundDesired(p: Pass, t: seq<Call>, which: Which) {
    exists c <- t :: Finds(p, c, which)
  }

  predicate Finds(p: Pass, c: Call, which: Which) {
    c.pc.Look? && Returned(c, which) && c.answer.flux.spec == Desired(p, which)
  }

  /** And its Ready condition was of that generation. */
  ghost predicate FoundCurrent(p: Pass, t: seq<Call>, which: Which) {
    exists c <- t :: Finds(p, c, which) && Current(c.answer.flux)
  }

  /** The pass wrote the object. */
  ghost predicate Wrote(t: seq<Call>, which: Which) { exists c <- t :: c.pc.Write? && Returned(c, which) }

  /** What was kept for the report is of the spec the pass wants, and is a verdict on it iff it was found so. */
  ghost predicate Judged(p: Pass, t: seq<Call>, which: Which) {
    LastFlux(t, which).Some? &&
    var o := LastFlux(t, which).value;
    && o.spec == Desired(p, which)
    && (Current(o) <==> FoundCurrent(p, t, which))
    && (Wrote(t, which) ==> !Current(o))
  }

  /** The version a pass is about to replace is one that differs from what it wants. */
  ghost predicate Differs(w: World, p: Pass) {
    p.pc.Write? && p.pc.task.PutFlux? && p.pc.seen.Some? ==>
      var ref := RefOf(p.pc.task.which, Tenant(p.key));
      && p.pc.seen.value <= w.clock
      && (ref in w.flux && w.flux[ref].rv == p.pc.seen.value ==> w.flux[ref].spec != Desired(p, p.pc.task.which))
  }

  ghost predicate Judging(w: World, p: Pass, t: seq<Call>) {
    && (forall which <- p.got :: Judged(p, t, which))
    && (p.pc.Write? && p.pc.task.PutFlux? ==>
          !FoundDesired(p, t, p.pc.task.which) && !Wrote(t, p.pc.task.which))
    && Differs(w, p)
  }

  ghost predicate JudgingAt(s: System, k: Key) {
    k in s.passes ==> s.passes[k].key == k && Judging(s.world, s.passes[k], TraceOf(s, k))
  }

  lemma JudgedStays(p: Pass, q: Pass, t: seq<Call>, c: Call, which: Which)
    requires Judged(p, t, which) && Desired(q, which) == Desired(p, which) && !Deals(c.pc, which)
    ensures Judged(q, t + [c], which)
  {
    hide Current, Desired;
    AppendTouches(t, c, which);
    var u := t + [c];
    assert forall d <- t :: d in u;
    assert forall d <- u :: d in t || d == c;
  }

  /** Only the spec of the main release depends on a register that the plan fills on its way. */
  lemma DesiredStays(p: Pass, q: Pass, which: Which)
    requires q.key == p.key && q.version == p.version && q.ctx == p.ctx
    requires which == Main ==> q.fluxSecret == p.fluxSecret
    ensures Desired(q, which) == Desired(p, which)
  {
  }

  lemma TaskLeavesJudged(p: Pass, t: seq<Call>, a: Answer, q: Pass, which: Which)
    requires AtTask(p) && Tracking(p, t) && which in p.got && Judged(p, t, which)
    requires q.key == p.key && q.version == p.version && q.ctx == p.ctx
    ensures Judged(q, t + [Call(p.pc, a)], which)
  {
    hide Judged, Desired;
    assert Tail(p)[|Tail(p)| - 1] == PutFlux(Main);
    DesiredStays(p, q, which);
    JudgedStays(p, q, t, Call(p.pc, a), which);
  }

  /** Found as it should be, the object goes into the report as it was found. */
  lemma FindingIsJudged(p: Pass, q: Pass, t: seq<Call>, c: Call, which: Which)
    requires Untouched(t, which) && Finds(p, c, which) && Desired(q, which) == Desired(p, which)
    ensures Judged(q, t + [c], which)
  {
    hide Current, Desired;
    AppendTouches(t, c, which);
    var u := t + [c];
    assert c in u;
    assert forall d <- u :: d in t || d == c;
  }

  /** Found missing or different, it has not been found as it should be. */
  lemma MissingIsNotFound(p: Pass, q: Pass, t: seq<Call>, c: Call, which: Which)
    requires Untouched(t, which) && c.pc.Look? && !Finds(q, c, which)
    ensures !FoundDesired(q, t + [c], which) && !Wrote(t + [c], which)
  {
    hide Desired;
    assert forall d <- t + [c] :: d in t || d == c;
  }

  /** Written, it goes into the report with the conditions of what it was before. */
  lemma WritingIsJudged(p: Pass, q: Pass, t: seq<Call>, c: Call, which: Which)
    requires c.pc.Write? && Returned(c, which) && !FoundDesired(p, t, which)
    requires Desired(q, which) == Desired(p, which) == c.answer.flux.spec && !Current(c.answer.flux)
    ensures Judged(q, t + [c], which)
  {
    hide Current, Desired;
    AppendTouches(t, c, which);
    var u := t + [c];
    assert forall d <- u :: d in t || d == c;
  }

  /** A write leaves behind whatever was observed of the object before. */
  lemma WrittenIsNotCurrent(w: World, p: Pass, a: Answer)
    requires AllObserved(w) && Differs(w, p) && p.pc.Write? && p.pc.task.PutFlux?
    requires LawfulWrite(w, p, p.pc.task, p.pc.seen, a)
    ensures a.flux.spec == Desired(p, p.pc.task.which) && !Current(a.flux)
  {
    hide Desired;
  }

  lemma LookIsJudged(w: World, p: Pass, t: seq<Call>, a: Answer)
    requires p.pc.Look? && Tracking(p, t) && Judging(w, p, t) && AllObserved(w)
    requires a.Failed? || LawfulLook(w, p, p.pc.task, a)
    ensures Judging(w, Passes.Step(p, a), t + [Call(p.pc, a)])
  {
    hide AfterLook, Statuses.Agrees, AllReady, Judged, Desired, Untouched, FoundDesired, Wrote, Current, Proper;
    var q, c := Passes.Step(p, a), Call(p.pc, a);
    forall which | which in q.got ensures Judged(q, t + [c], which) {
      if which in p.got {
        TaskLeavesJudged(p, t, a, q, which);
      } else {
        DesiredStays(p, q, which);
        FindingIsJudged(p, q, t, c, which);
      }
    }
    if q.pc.Write? && q.pc.task.PutFlux? {
      DesiredStays(p, q, q.pc.task.which);
      MissingIsNotFound(p, q, t, c, q.pc.task.which);
    }
  }

  lemma WriteIsJudged(w: World, v: World, p: Pass, t: seq<Call>, a: Answer)
    requires p.pc.Write? && Tracking(p, t) && Judging(w, p, t) && AllObserved(w)
    requires a.Failed? || LawfulWrite(w, p, p.pc.task, p.pc.seen, a)
    ensures Judging(v, Passes.Step(p, a), t + [Call(p.pc, a)])
  {
    hide AfterWrite, Statuses.Agrees, AllReady, Judged, Desired, Untouched, FoundDesired, Wrote, Current, Proper,
      LawfulWrite, Differs;
    var q, c := Passes.Step(p, a), Call(p.pc, a);
    DiffersUnlessWriting(v, q);
    forall which | which in q.got ensures Judged(q, t + [c], which) {
      if which in p.got {
        TaskLeavesJudged(p, t, a, q, which);
      } else {
        DesiredStays(p, q, which);
        WrittenIsNotCurrent(w, p, a);
        WritingIsJudged(p, q, t, c, which);
      }
    }
  }

  lemma DiffersUnlessWriting(w: World, p: Pass)
    requires !p.pc.Write?
    ensures Differs(w, p)
  {
  }

  lemma OtherCallsAreJudged(v: World, p: Pass, t: seq<Call>, a: Answer)
    requires !AtTask(p) && Tracking(p, t) && forall which <- p.got :: Judged(p, t, which)
    ensures Judging(v, Passes.Step(p, a), t + [Call(p.pc, a)])
  {
    var q := Passes.Step(p, a);
    hide Passes.Step, Judged, Differs;
    DiffersUnlessWriting(v, q);
    forall which | which in q.got ensures Judged(q, t + [Call(p.pc, a)], which) {
      DesiredStays(p, q, which);
      JudgedStays(p, q, t, Call(p.pc, a), which);
    }
  }

  // ---------- all runs ----------

  lemma OwnCallIsJudged(s: System, k: Key, a: Answer, h: Hidden)
    requires k in s.passes && JudgingAt(s, k) && Tracking(s.passes[k], TraceOf(s, k)) && AllObserved(s.world)
    requires Lawful(s.world, s.passes[k], s.config.stored.config, s.config.epoch, a, h)
    ensures JudgingAt(Calls(s, k, a, h), k)
  {
    hide Passes.Step, Effect, Judging, Tracking, AllObserved, Watch;
    var p, t := s.passes[k], TraceOf(s, k);
    if p.pc.Look? {
      LookingIsLawful(s.world, p, s.config.stored.config, s.config.epoch, a, h);
      LookIsJudged(s.world, p, t, a);
      LooksLeaveFlux(s.world, p, a, h);
      EquallyJudged(s.world, Effect(s.world, p, a, h), Passes.Step(p, a), t + [Call(p.pc, a)]);
    } else if p.pc.Write? {
      WriteIsJudged(s.world, Effect(s.world, p, a, h), p, t, a);
    } else {
      JudgingIsJudged(s.world, p, t);
      OtherCallsAreJudged(Effect(s.world, p, a, h), p, t, a);
    }
  }

  lemma LookingIsLawful(w: World, p: Pass, cache: Option<ProviderConfig>, epoch: nat, a: Answer, h: Hidden)
    requires Lawful(w, p, cache, epoch, a, h) && p.pc.Look?
    ensures a.Failed? || LawfulLook(w, p, p.pc.task, a)
  {
  }

  lemma JudgingIsJudged(w: World, p: Pass, t: seq<Call>)
    requires Judging(w, p, t)
    ensures forall which <- p.got :: Judged(p, t, which)
  {
  }

  lemma LooksLeaveFlux(w: World, p: Pass, a: Answer, h: Hidden)
    requires p.pc.Look?
    ensures Effect(w, p, a, h).flux == w.flux && Effect(w, p, a, h).clock == w.clock
  {
  }

  lemma EquallyJudged(w: World, v: World, p: Pass, t: seq<Call>)
    requires Judging(w, p, t) && v.flux == w.flux && v.clock == w.clock
    ensures Judging(v, p, t)
  {
    hide Desired;
  }

  /** What others change is no longer the version that was looked at. */
  lemma LaterIsJudged(w: World, v: World, p: Pass, t: seq<Call>)
    requires Judging(w, p, t) && Later(w, v)
    ensures Judging(v, p, t)
  {
    hide Desired, Judged, FoundDesired, Wrote;
  }

  lemma OthersLeaveJudged(s: System, v: World, k: Key)
    requires JudgingAt(s, k) && Later(s.world, v)
    ensures JudgingAt(s.(world := v), k)
  {
    hide Judging, Later;
    if k in s.passes { LaterIsJudged(s.world, v, s.passes[k], TraceOf(s, k)); }
  }

  ghost predicate Fair(s: System, k: Key) { JudgingAt(s, k) && AllObserved(s.world) && TracedAt(s, k) }

  lemma StepIsJudged(s: System, a: Action, k: Key)
    requires Fair(s, k) && s.config.history != [] && Enabled(s, a)
    ensures Fair(Apply(s, a), k)
  {
    hide Judging, AllObserved, TracedAt, Tracking, Effect, Act, Passes.Step, Lawful, Permitted, Observe, Settle, Later,
      Watch;
    StepIsTraced(s, a, k);
    match a
    case Environment(e) =>
      EnvironmentIsLater(s.world, e);
      OthersLeaveJudged(s, Act(s.world, e), k);
    case PassCalls(j, answer, h) =>
      EffectIsLater(s.world, s.passes[j], answer, h);
      if j == k {
        TracedAtIsTracked(s, k);
        OwnCallIsJudged(s, k, answer, h);
      } else {
        OthersLeaveJudged(s, Effect(s.world, s.passes[j], answer, h), k);
      }
    case PassStarts(j) => FreshIsJudged(s.world, StartPass(k, s.time, s.needsWorkload));
    case _ =>
  }

  lemma TracedAtIsTracked(s: System, k: Key)
    requires TracedAt(s, k) && k in s.passes
    ensures Tracking(s.passes[k], TraceOf(s, k))
  {
    hide Traced, Tracking;
    TracedIsTracked(s.passes[k], TraceOf(s, k));
  }

  lemma FreshIsJudged(w: World, p: Pass)
    requires p == Fresh(p)
    ensures Judging(w, p, [])
  {
  }

  lemma InitialIsJudged(s: System, k: Key)
    requires Initial(s)
    ensures Fair(s, k)
  {
  }

  lemma ReachableIsJudged(s: System, k: Key)
    requires Reachable(s)
    ensures Fair(s, k)
  {
    hide Fair, Apply, Enabled, Initial, Reachable;
    forall s | Initial(s) ensures Fair(s, k) { InitialIsJudged(s, k); }
    forall s, a, t | Fair(s, k) && Joined(s, a, t) ensures Fair(t, k) { StepIsJudged(s, a, k); }
    HoldsWhereReachable(s => Fair(s, k), s);
  }

  /**
   "Ready means that the wanted specs are ready" holds of an object iff the pass found it with the wanted
   spec and a Ready condition of that generation, which can be seen before the pass. In every run, a create
   pass that reports Ready has had all three objects back with the specs it wants and a True Ready
   condition; that condition was observed at the object's present generation iff the object was found so,
   and never if the pass had to write it.
   */
  lemma ReadyIsCurrentIfFoundSo(s: System, k: Key, which: Which)
    requires Reachable(s) && k in s.passes && Reports.HasEntered(TraceOf(s, k))
    requires var p := s.passes[k]; p.mode == Creating && Leaving(p) && p.obj.status.phase == Ready
    ensures var p, t := s.passes[k], TraceOf(s, k);
      LastFlux(t, which).Some? &&
      var o := LastFlux(t, which).value;
      && o.spec == Desired(p, which) && (exists i: nat :: Reports.TrueAt(o.conditions, i))
      && (Current(o) <==> FoundCurrent(p, t, which))
      && (Wrote(t, which) ==> !Current(o))
  {
    hide Reachable, Traced, Judged, Reports.HasEntered, AllObserved, SaysReady, LastFlux, Proper, Differs, Wrote,
      FoundDesired;
    var p, t := s.passes[k], TraceOf(s, k);
    ReachableIsJudged(s, k);
    TracedIsTracked(p, t);
    ReadyIsAllReady(s, k);
    hide Tracking;
    JudgedObject(p, t, which);
    ReadyIsTrue(LastFlux(t, which).value.conditions);
  }

  lemma ReadyIsTrue(cs: seq<Condition>)
    requires SaysReady(cs)
    ensures exists i: nat :: Reports.TrueAt(cs, i)
  {
    var i :| 0 <= i < |cs| && FirstReady(cs, i) && cs[i].status == CondTrue;
    assert Reports.TrueAt(cs, i);
  }

  lemma JudgedObject(p: Pass, t: seq<Call>, which: Which)
    requires Tracking(p, t) && which in p.got && Judged(p, t, which)
    ensures LastFlux(t, which).Some? &&
      var o := LastFlux(t, which).value;
      && o.conditions == p.got[which] && o.spec == Desired(p, which)
      && (Current(o) <==> FoundCurrent(p, t, which)) && (Wrote(t, which) ==> !Current(o))
  {
    hide Desired, Current, FoundCurrent, Wrote;
  }

  lemma ReadyIsAllReady(s: System, k: Key)
    requires Reachable(s) && k in s.passes && Reports.HasEntered(TraceOf(s, k))
    requires var p := s.passes[k]; p.mode == Creating && Leaving(p) && p.obj.status.phase == Ready
    ensures forall which: Which :: which in s.passes[k].got && SaysReady(s.passes[k].got[which])
  {
    hide Reachable, Reports.HasEntered, Statuses.Coherent;
    Reports.ReachableIsHonest(s, k);
    var p := s.passes[k];
    forall which: Which ensures which in p.got && SaysReady(p.got[which]) {
      match which case Oci => case Main => case Crds =>
    }
  }
}
