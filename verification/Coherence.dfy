/**
 The cached config and the ProviderConfig it mirrors: what travels through the channel is always a
 value the ProviderConfig had (or nil), in order, and what comes out last is the current one.
 */
module Coherence {
  import opened Wrappers
  import opened Worlds
  import opened Operator

  /** The message tells a value of the history, or, after a failed read, nil. */
  ghost predicate Truthful(c: Propagation, m: Message) {
    && m.at < |c.history|
    && m.config == (if m.clean then Effective(c.history[m.at]) else None)
  }

  /** All notifications not yet superseded, oldest first: the cached one, those in the channel, the one being sent. */
  ghost function Pipeline(c: Propagation): (ms: seq<Message>)
    ensures |ms| > 0 && ms[0] == c.stored
  {
    [c.stored] + c.channel + if c.sending.Some? then [c.sending.value] else []
  }

  ghost function Newest(c: Propagation): Message { Pipeline(c)[|Pipeline(c)| - 1] }

  ghost predicate Ordered(ms: seq<Message>) {
    forall i, j :: 0 <= i < j < |ms| ==> ms[i].at <= ms[j].at
  }

  ghost predicate Coherent(c: Propagation) {
    && c.history != [] && c.history[0] == Absent
    && (forall m <- Pipeline(c) :: Truthful(c, m))
    && Ordered(Pipeline(c))
    && (!Newest(c).clean ==> c.unseen)
    && (!c.unseen ==> Newest(c).config == Effective(c.history[|c.history| - 1]))
  }

  lemma ChangesAreCoherent(c: Propagation, live: LiveConfig)
    requires Coherent(c)
    ensures Coherent(c.(history := c.history + [live], unseen := true))
  {
    var d := c.(history := c.history + [live], unseen := true);
    forall m <- Pipeline(d) ensures Truthful(d, m) {
      assert m in Pipeline(c);
    }
  }

  lemma ObservingIsCoherent(c: Propagation, ok: bool)
    requires Coherent(c) && c.unseen && c.sending.None?
    ensures Coherent(Observe(c, ok))
  {
    var d := Observe(c, ok);
    assert Pipeline(d) == Pipeline(c) + [d.sending.value];
    forall m <- Pipeline(d) ensures Truthful(d, m) {
      assert m in Pipeline(c) || m == d.sending.value;
    }
    forall i, j | 0 <= i < j < |Pipeline(d)| ensures Pipeline(d)[i].at <= Pipeline(d)[j].at {
      assert Truthful(c, Pipeline(c)[i]);
    }
  }

  /** Sending moves nothing in the pipeline, receiving drops its head. */
  lemma PassingOnIsCoherent(c: Propagation, d: Propagation)
    requires Coherent(c) && d.history == c.history && d.unseen == c.unseen
    requires Pipeline(d) == Pipeline(c) || (|Pipeline(c)| > 1 && Pipeline(d) == Pipeline(c)[1..])
    ensures Coherent(d)
  {
    forall m <- Pipeline(d) ensures Truthful(d, m) {
      assert m in Pipeline(c);
    }
  }

  lemma RestartingIsCoherent(c: Propagation, epoch: nat)
    requires Coherent(c)
    ensures Coherent(c.(unseen := c.history[|c.history| - 1].Present?, sending := None, channel := [],
                        stored := NO_MESSAGE, epoch := epoch, handler := Waiting))
  {
  }

  lemma StepIsCoherent(s: System, a: Action)
    requires Coherent(s.config) && Enabled(s, a)
    ensures Coherent(Apply(s, a).config)
  {
    hide Coherent, Pipeline, Effect, Act, Passes.Step, Lawful, Permitted, Observe, Settle;
    CoherentHistory(s.config);
    match a
    case ConfigChanges(c) => ChangesAreCoherent(s.config, c);
    case ConfigObserved(ok) => ObservingIsCoherent(s.config, ok);
    case ConfigSent =>
      SendingKeepsPipeline(s.config);
      PassingOnIsCoherent(s.config, Apply(s, a).config);
    case ConfigReceived =>
      ReceivingDropsHead(s.config, Apply(s, a).config);
      PassingOnIsCoherent(s.config, Apply(s, a).config);
    case KrosListed(ok) =>
      HandlingKeepsPipeline(s.config, Apply(s, a).config);
      PassingOnIsCoherent(s.config, Apply(s, a).config);
    case KroEnqueued(k) =>
      HandlingKeepsPipeline(s.config, Apply(s, a).config);
      PassingOnIsCoherent(s.config, Apply(s, a).config);
    case Restart => RestartingIsCoherent(s.config, s.config.epoch + 1);
    case _ =>
  }

  lemma CoherentHistory(c: Propagation)
    requires Coherent(c)
    ensures c.history != []
  {
  }

  lemma SendingKeepsPipeline(c: Propagation)
    requires c.sending.Some?
    ensures Pipeline(c.(channel := c.channel + [c.sending.value], sending := None)) == Pipeline(c)
  {
  }

  lemma ReceivingDropsHead(c: Propagation, d: Propagation)
    requires c.channel != [] && d == c.(channel := c.channel[1..], stored := c.channel[0], epoch := d.epoch,
      handler := d.handler)
    ensures |Pipeline(c)| > 1 && Pipeline(d) == Pipeline(c)[1..]
  {
  }

  lemma HandlingKeepsPipeline(c: Propagation, d: Propagation)
    requires d == c.(handler := d.handler)
    ensures Pipeline(d) == Pipeline(c)
  {
  }

  lemma InitialIsCoherent(s: System)
    requires Initial(s)
    ensures Coherent(s.config)
  {
  }

  lemma ReachableIsCoherent(s: System)
    requires Reachable(s)
    ensures Coherent(s.config)
  {
    hide Coherent, Apply, Enabled, Initial, Reachable;
    forall s: System | Initial(s) ensures Coherent(s.config) { InitialIsCoherent(s); }
    forall s: System, a, t | Coherent(s.config) && Joined(s, a, t) ensures Coherent(t.config) { StepIsCoherent(s, a); }
    HoldsWhereReachable((s: System) => Coherent(s.config), s);
  }

  /**
   Config coherence: the cached config is nil or the value the ProviderConfig held when it was read, at the
   place in its history that the notification names, and once the last
   change has been observed without error and the channel is drained, it is the current one, nil if
   there is none or it is being deleted. A failed read only inserts a nil, and its retry is still due.
   */
  lemma CacheIsCoherent(s: System)
    requires Reachable(s)
    ensures s.config.stored.at < |s.config.history|
    ensures s.config.stored.config.Some? ==>
      s.config.history[s.config.stored.at] == LiveConfig.Present(s.config.stored.config.value, false)
    ensures !s.config.unseen && s.config.channel == [] && s.config.sending.None? ==>
      match s.config.history[|s.config.history| - 1]
      case Absent => s.config.stored.config == None
      case Present(config, deleting) => s.config.stored.config == if deleting then None else Some(config)
    ensures s.config.channel == [] && s.config.sending.None? && !s.config.stored.clean ==>
      s.config.stored.config.None? && s.config.unseen
  {
    hide Reachable;
    ReachableIsCoherent(s);
    assert Truthful(s.config, s.config.stored);
  }

  /** From `c` to `d` the cache has not gone back in the config's history. */
  ghost predicate Onward(c: Propagation, d: Propagation) {
    c.stored.at <= d.stored.at && c.history <= d.history
  }

  lemma {:induction false} RunsGoOnward(r: Run, i: nat, j: nat)
    requires ValidRun(r) && i <= j < |r.states|
    requires forall n :: i <= n < j ==> r.actions[n] != Restart
    ensures Onward(r.states[i].config, r.states[j].config)
    decreases j
  {
    hide Coherent, Apply, Enabled, Initial;
    if i < j {
      RunsGoOnward(r, i, j - 1);
      RunStatesAreReachable(r, j - 1);
      ReachableIsCoherent(r.states[j - 1]);
      StepMovesCacheForward(r.states[j - 1], r.actions[j - 1]);
    }
  }

  /**
   Without a restart in between, the cache never goes back: what is cached later was read at the same place
   in the config's history, or at a later one.
   */
  lemma CacheNeverGoesBack(r: Run, i: nat, j: nat)
    requires ValidRun(r) && i <= j < |r.states|
    requires forall n :: i <= n < j ==> r.actions[n] != Restart
    ensures var c, d := r.states[i].config, r.states[j].config;
      && c.stored.at <= d.stored.at < |d.history| && c.history <= d.history
      && (c.stored.config.Some? ==> d.history[c.stored.at] == LiveConfig.Present(c.stored.config.value, false))
      && (d.stored.config.Some? ==> d.history[d.stored.at] == LiveConfig.Present(d.stored.config.value, false))
  {
    RunsGoOnward(r, i, j);
    RunStatesAreReachable(r, i);
    RunStatesAreReachable(r, j);
    CacheIsCoherent(r.states[i]);
    CacheIsCoherent(r.states[j]);
    hide ValidRun, Reachable;
  }

  lemma StepMovesCacheForward(s: System, a: Action)
    requires Coherent(s.config) && Enabled(s, a) && a != Restart
    ensures s.config.history != [] && s.config.stored.at <= Apply(s, a).config.stored.at
    ensures s.config.history <= Apply(s, a).config.history
  {
    hide Effect, Act, Passes.Step, Lawful, Permitted, Settle;
    if a.ConfigReceived? {
      assert Pipeline(s.config)[1] == s.config.channel[0];
    }
  }
}
