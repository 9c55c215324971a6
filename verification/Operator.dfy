/**
 The whole system: stores, passes in flight (at most one per Kro), the work queue, and the way a
 ProviderConfig change travels from the platform cluster through a channel into the cached config.
 A run is a sequence of states joined by enabled actions; nothing is assumed about the scheduling.
 */
module Operator {
  import opened Wrappers
  import opened Resources
  import opened Passes
  import opened Worlds

  /** The ProviderConfig as stored on the platform cluster. */
  datatype LiveConfig = Absent | Present(config: ProviderConfig, deleting: bool)

  /** What the config reconciler announces for it. */
  function Effective(c: LiveConfig): Option<ProviderConfig> {
    if c.Present? && !c.deleting then Some(c.config) else None
  }

  /** A notification; `at` is the position in the config's history it was read at, `clean` no read error. */
  datatype Message = Message(at: nat, config: Option<ProviderConfig>, clean: bool)

  /** The receiving handler: waiting, about to list the Kros, or enqueueing what it listed. */
  datatype Handler = Waiting | Listing | Enqueueing(keys: set<Key>)

  /**
   `history` holds every value the ProviderConfig has had, the last one current; `unseen` says its
   reconciler has work; `sending` is the notification it is blocked on; `stored` the last one received.
   */
  datatype Propagation = Propagation(
    history: seq<LiveConfig>,
    unseen: bool,
    sending: Option<Message>,
    channel: seq<Message>,
    stored: Message,
    epoch: nat,
    handler: Handler)

  /** Keys waiting to be reconciled: queued, backing off after an error, or on a timer. */
  datatype Queue = Queue(ready: set<Key>, retry: set<Key>, timers: set<Key>, used: map<Key, nat>)

  /** A call made by a pass, with the answer it got. */
  datatype Call = Call(pc: Pc, answer: Answer)

  /** `traces` holds the calls each key's current (or latest) pass has made. */
  datatype System = System(
    world: World,
    passes: map<Key, Pass>,
    traces: map<Key, seq<Call>>,
    needsWorkload: bool,
    queue: Queue,
    config: Propagation,
    time: nat)

  datatype Action =
    | Environment(e: Env)
    | ConfigChanges(c: LiveConfig)
    | ConfigObserved(ok: bool)
    | ConfigSent
    | ConfigReceived
    | KrosListed(ok: bool)
    | KroEnqueued(k: Key)
    | PassStarts(k: Key)
    | PassCalls(k: Key, a: Answer, h: Hidden)
    | PassEnds(k: Key)
    | RetryFires(k: Key)
    | TimerFires(k: Key)
    | TimePasses
    | Restart

  predicate Enabled(s: System, a: Action) {
    match a
    case Environment(e) => Permitted(s.world, e)
    case ConfigChanges(_) => true
    case ConfigObserved(_) => s.config.unseen && s.config.sending.None?
    case ConfigSent => s.config.sending.Some?
    case ConfigReceived => s.config.channel != [] && s.config.handler.Waiting?
    case KrosListed(_) => s.config.handler.Listing?
    case KroEnqueued(k) => s.config.handler.Enqueueing? && k in s.config.handler.keys
    case PassStarts(k) => k in s.queue.ready && k !in s.passes
    case PassCalls(k, answer, h) =>
      k in s.passes && Lawful(s.world, s.passes[k], s.config.stored.config, s.config.epoch, answer, h)
    case PassEnds(k) => k in s.passes && s.passes[k].pc.Done?
    case RetryFires(k) => k in s.queue.retry
    case TimerFires(k) => k in s.queue.timers
    case TimePasses => true
    case Restart => true
  }

  function KroAt(w: World, k: Key): Option<Kro> { if k in w.kros then Some(w.kros[k]) else None }

  /** The watch on Kros: every change to one enqueues it. */
  function Watch(s: System, after: World): (t: System)
    ensures t == s.(world := after, queue := s.queue.(ready := t.queue.ready)) && s.queue.ready <= t.queue.ready
  {
    var touched := set k | k in s.world.kros.Keys + after.kros.Keys && KroAt(s.world, k) != KroAt(after, k);
    s.(world := after, queue := s.queue.(ready := s.queue.ready + touched))
  }

  function TraceOf(s: System, k: Key): seq<Call> { if k in s.traces then s.traces[k] else [] }

  /** The environment moves between two calls. */
  function Moves(s: System, e: Env): System
    requires Permitted(s.world, e)
  {
    Watch(s, Act(s.world, e))
  }

  /** The pass for `k` makes its pending call. */
  function Calls(s: System, k: Key, a: Answer, h: Hidden): System
    requires k in s.passes
  {
    var p := s.passes[k];
    Watch(s, Effect(s.world, p, a, h))
      .(passes := s.passes[k := Step(p, a)], traces := s.traces[k := TraceOf(s, k) + [Call(p.pc, a)]])
  }

  const NO_MESSAGE := Message(0, None, true)

  function Apply(s: System, a: Action): System
    requires Enabled(s, a)
    requires s.config.history != []
  {
    match a
    case Environment(e) => Moves(s, e)
    case ConfigChanges(c) => s.(config := s.config.(history := s.config.history + [c], unseen := true))
    case ConfigObserved(ok) => s.(config := Observe(s.config, ok))
    case ConfigSent =>
      s.(config := s.config.(channel := s.config.channel + [s.config.sending.value], sending := None))
    case ConfigReceived =>
      s.(config := s.config.(channel := s.config.channel[1..], stored := s.config.channel[0],
                             epoch := s.config.epoch + 1, handler := Listing))
    case KrosListed(ok) =>
      s.(config := s.config.(handler := if ok && s.world.kros != map[] then Enqueueing(s.world.kros.Keys) else Waiting))
    case KroEnqueued(k) =>
      var left := s.config.handler.keys - {k};
      s.(queue := s.queue.(ready := s.queue.ready + {k}),
         config := s.config.(handler := if left == {} then Waiting else Enqueueing(left)))
    case PassStarts(k) =>
      s.(queue := s.queue.(ready := s.queue.ready - {k}),
         passes := s.passes[k := StartPass(k, s.time, s.needsWorkload)],
         traces := s.traces[k := []])
    case PassCalls(k, answer, h) => Calls(s, k, answer, h)
    case PassEnds(k) =>
      s.(passes := s.passes - {k}, queue := Settle(s.queue, s.passes[k], s.passes[k].pc.result))
    case RetryFires(k) => s.(queue := s.queue.(ready := s.queue.ready + {k}, retry := s.queue.retry - {k}))
    case TimerFires(k) => s.(queue := s.queue.(ready := s.queue.ready + {k}, timers := s.queue.timers - {k}))
    case TimePasses => s.(time := s.time + 1)
    case Restart =>
      s.(passes := map[],
         traces := map[],
         queue := Queue(s.world.kros.Keys, {}, {}, map[]),
         config := s.config.(unseen := s.config.history[|s.config.history| - 1].Present?, sending := None,
                             channel := [], stored := NO_MESSAGE, epoch := s.config.epoch + 1, handler := Waiting))
  }

  /** PCReconciler.Reconcile up to its send: a failed read announces nil and is retried. */
  function Observe(c: Propagation, ok: bool): Propagation
    requires c.history != []
  {
    var at := |c.history| - 1;
    if ok then c.(unseen := false, sending := Some(Message(at, Effective(c.history[at]), true)))
    else c.(sending := Some(Message(at, None, false)))
  }

  /** What the work queue does with a pass's outcome. */
  function Settle(q: Queue, p: Pass, r: Outcome): Queue {
    var used := if p.epoch.Some? then q.used[p.key := p.epoch.value] else q.used;
    if r.failed then q.(retry := q.retry + {p.key}, used := used)
    else if r.requeue > 0 then q.(timers := q.timers + {p.key}, used := used)
    else q.(used := used)
  }

  predicate Initial(s: System) {
    && s.world.kros == map[] && s.world.flux == map[] && s.world.requests == map[]
    && s.world.replicas == {}
    && s.passes == map[] && s.traces == map[]
    && s.queue == Queue({}, {}, {}, map[])
    && s.config.history == [Absent]
    && s.config == Propagation([Absent], false, None, [], NO_MESSAGE, 0, Waiting)
  }

  // ---------- runs ----------

  datatype Run = Run(states: seq<System>, actions: seq<Action>)

  ghost predicate Joined(s: System, a: Action, t: System) {
    s.config.history != [] && Enabled(s, a) && t == Apply(s, a)
  }

  ghost predicate ValidRun(r: Run) {
    && |r.states| == |r.actions| + 1
    && Initial(r.states[0])
    && forall i :: 0 <= i < |r.actions| ==> Joined(r.states[i], r.actions[i], r.states[i + 1])
  }

  /** Some run ends in `s`. */
  ghost predicate Reachable(s: System) {
    exists r: Run :: ValidRun(r) && r.states[|r.actions|] == s
  }

  lemma Extend(s: System, a: Action)
    requires Reachable(s) && s.config.history != [] && Enabled(s, a)
    ensures Reachable(Apply(s, a))
  {
    hide Enabled, Apply, Initial;
    var r: Run :| ValidRun(r) && r.states[|r.actions|] == s;
    var t := Apply(s, a);
    var q := Run(r.states + [t], r.actions + [a]);
    forall i | 0 <= i < |q.actions| ensures Joined(q.states[i], q.actions[i], q.states[i + 1]) {
      if i < |r.actions| {
        assert Joined(r.states[i], r.actions[i], r.states[i + 1]);
      }
    }
    assert q.states[|q.actions|] == t;
  }

  lemma RunStatesAreReachable(r: Run, i: nat)
    requires ValidRun(r) && i < |r.states|
    ensures Reachable(r.states[i])
    ensures i < |r.actions| ==> Joined(r.states[i], r.actions[i], r.states[i + 1])
  {
    hide Joined, Initial;
    var q := Run(r.states[..i + 1], r.actions[..i]);
    forall j | 0 <= j < |q.actions| ensures Joined(q.states[j], q.actions[j], q.states[j + 1]) {
      assert Joined(r.states[j], r.actions[j], r.states[j + 1]);
    }
    assert ValidRun(q) && q.states[|q.actions|] == r.states[i];
  }

  /** What holds initially and survives every enabled action holds along every run. */
  lemma {:induction false} HoldsAlongRuns(inv: System -> bool, r: Run, i: nat)
    requires ValidRun(r) && i < |r.states|
    requires forall s :: Initial(s) ==> inv(s)
    requires forall s, a, t :: inv(s) && Joined(s, a, t) ==> inv(t)
    ensures inv(r.states[i])
  {
    hide Joined, Initial;
    if i > 0 {
      HoldsAlongRuns(inv, r, i - 1);
      assert Joined(r.states[i - 1], r.actions[i - 1], r.states[i]);
    }
  }

  lemma HoldsWhereReachable(inv: System -> bool, s: System)
    requires Reachable(s)
    requires forall s :: Initial(s) ==> inv(s)
    requires forall s, a, t :: inv(s) && Joined(s, a, t) ==> inv(t)
    ensures inv(s)
  {
    hide Joined, Initial;
    var r: Run :| ValidRun(r) && r.states[|r.actions|] == s;
    HoldsAlongRuns(inv, r, |r.actions|);
  }
}
