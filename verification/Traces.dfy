/** Every pass in flight is the replay of its own trace, so what holds of all replays holds in all runs. */
module Traces {
  import opened Wrappers
  import opened Resources
  import opened Passes
  import opened Worlds
  import opened Operator

  /** The pass `p` started as. */
  function Fresh(p: Pass): Pass { StartPass(p.key, p.now, p.needsWorkload) }

  /** The state of a pass once the calls `t` have been answered. */
  function After(p: Pass, t: seq<Call>): Pass
    decreases |t|
  {
    if t == [] then p else Passes.Step(After(p, t[..|t| - 1]), t[|t| - 1].answer)
  }

  /** The access provider's delays are not negative. */
  predicate NonNegative(a: Answer) { a.Delay? ==> a.seconds >= 0 }

  /** `t` records the calls that `p` makes, in order. */
  ghost predicate Genuine(p: Pass, t: seq<Call>)
    decreases |t|
  {
    t == [] ||
    var last := |t| - 1;
    && Genuine(p, t[..last])
    && t[last].pc == After(p, t[..last]).pc
    && NonNegative(t[last].answer)
  }

  ghost predicate Traced(p: Pass, t: seq<Call>) {
    Genuine(Fresh(p), t) && p == After(Fresh(p), t)
  }

  lemma {:induction false} AfterKeepsIdentity(p: Pass, t: seq<Call>)
    ensures Keeps(p, After(p, t))
    decreases |t|
  {
    hide Passes.Step;
    if t != [] {
      AfterKeepsIdentity(p, t[..|t| - 1]);
    }
  }

  /** Before its last call, a traced pass was traced too. */
  lemma TracedPrefix(p: Pass, t: seq<Call>)
    requires Traced(p, t) && t != []
    ensures var before := After(Fresh(p), t[..|t| - 1]);
      && Traced(before, t[..|t| - 1]) && Fresh(before) == Fresh(p)
      && t[|t| - 1].pc == before.pc && NonNegative(t[|t| - 1].answer)
      && p == Passes.Step(before, t[|t| - 1].answer)
  {
    hide Passes.Step;
    AfterKeepsIdentity(Fresh(p), t[..|t| - 1]);
  }

  lemma TracedCall(p: Pass, t: seq<Call>, a: Answer)
    requires Traced(p, t) && NonNegative(a)
    ensures Traced(Passes.Step(p, a), t + [Call(p.pc, a)])
  {
    hide Passes.Step;
    var u := t + [Call(p.pc, a)];
    assert u[..|u| - 1] == t;
  }

  lemma LawfulIsNonNegative(w: World, p: Pass, cache: Option<ProviderConfig>, epoch: nat, a: Answer, h: Hidden)
    requires Lawful(w, p, cache, epoch, a, h)
    ensures NonNegative(a)
  {
    hide Written, RevokeRequests, NoRequests, AllGranted, RGDs;
  }

  ghost predicate TracedAt(s: System, k: Key) {
    k in s.passes ==> Traced(s.passes[k], TraceOf(s, k))
  }

  lemma StepIsTraced(s: System, a: Action, k: Key)
    requires TracedAt(s, k) && s.config.history != [] && Enabled(s, a)
    ensures TracedAt(Apply(s, a), k)
  {
    hide Traced, Effect, Act, Passes.Step, Lawful, Permitted, Observe, Settle;
    match a
    case PassCalls(j, answer, h) =>
      if j == k {
        LawfulIsNonNegative(s.world, s.passes[k], s.config.stored.config, s.config.epoch, answer, h);
        TracedCall(s.passes[k], TraceOf(s, k), answer);
      }
    case PassStarts(j) =>
      if j == k { FreshIsTraced(k, s.time, s.needsWorkload); }
    case _ =>
  }

  lemma FreshIsTraced(k: Key, now: nat, needs: bool)
    ensures Traced(StartPass(k, now, needs), [])
  {
  }

  lemma InitialIsTraced(s: System, k: Key)
    requires Initial(s)
    ensures TracedAt(s, k)
  {
  }

  /** In every reachable state, the pass in flight for a key is the replay of its trace. */
  lemma ReachableIsTraced(s: System, k: Key)
    requires Reachable(s)
    ensures TracedAt(s, k)
  {
    hide TracedAt, Apply, Enabled, Initial, Reachable;
    forall s | Initial(s) ensures TracedAt(s, k) { InitialIsTraced(s, k); }
    forall s, a, t | TracedAt(s, k) && Joined(s, a, t) ensures TracedAt(t, k) { StepIsTraced(s, a, k); }
    HoldsWhereReachable(s => TracedAt(s, k), s);
  }
}
