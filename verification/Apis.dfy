/**
 The API servers as the code of one reconcile pass sees them. Between two calls, and while a call is
 under way, anybody else may move; a call may be answered in any way the stores allow, a failure included.
 */
module Apis {
  import opened Wrappers
  import opened Resources
  import opened Flux
  import opened Passes
  import opened Worlds
  import opened Operator
  import opened Coherence
  import opened Objects
  import opened Traces

  /** Steps that are not the pass's own. */
  predicate Foreign(a: Action, k: Key) {
    a != Restart && a != PassStarts(k) && a != PassEnds(k) && !(a.PassCalls? && a.k == k)
  }

  lemma ForeignKeepsPass(s: System, a: Action, k: Key)
    requires s.config.history != [] && Enabled(s, a) && Foreign(a, k) && k in s.passes
    ensures k in Apply(s, a).passes && Apply(s, a).passes[k] == s.passes[k]
    ensures TraceOf(Apply(s, a), k) == TraceOf(s, k)
  {
    hide Effect, Act, Passes.Step, Lawful, Permitted, Observe, Settle;
  }

  /** The cache is not written without counting. */
  predicate Since(c: Propagation, d: Propagation) {
    c.epoch <= d.epoch && (c.epoch == d.epoch ==> c.stored == d.stored)
  }

  lemma StepsAreCounted(s: System, a: Action)
    requires s.config.history != [] && Enabled(s, a)
    ensures Since(s.config, Apply(s, a).config)
  {
    hide Effect, Act, Passes.Step, Lawful, Permitted, Settle;
  }

  /** A call can always fail, but for the load of the cached config, which cannot. */
  function Fallback(p: Pass, c: Propagation): Answer {
    if p.pc.LoadConfig? then Loaded(c.stored.config, c.epoch) else Failed("timeout")
  }

  lemma FallbackIsLawful(w: World, p: Pass, c: Propagation)
    requires !p.pc.Done?
    ensures Lawful(w, p, c.stored.config, c.epoch, Fallback(p, c), NOTHING)
  {
    hide Written, RevokeRequests, NoRequests, AllGranted, RGDs;
  }

  class Api {
    const key: Key
    var sys: System

    ghost predicate Valid()
      reads this
    {
      Reachable(sys) && key in sys.passes && sys.passes[key].key == key
    }

    /** The pointer was right when it was last written, and nobody mistakes the API for a part of the config. */
    ghost predicate Synced(pointer: ConfigPointer)
      reads this, pointer, pointer.config, if pointer.config == null then {} else pointer.config.Repr
    {
      && pointer.stores <= sys.config.epoch
      && (pointer.stores == sys.config.epoch ==> pointer.Holds(sys.config.stored.config))
      && pointer.Apart({this, pointer})
    }

    /** The pass that is under way for this key. */
    ghost function Current(): Pass
      reads this
    {
      if key in sys.passes then sys.passes[key] else StartPass(key, 0, false)
    }

    constructor (sys: System, key: Key)
      requires Reachable(sys) && key in sys.passes && sys.passes[key].key == key
      ensures this.sys == sys && this.key == key && Valid()
    {
      this.sys := sys;
      this.key := key;
    }

    // ---------- any call ----------

    /** Some time passes: others take any number of steps. */
    method Interfere()
      requires Valid()
      modifies this
      ensures Valid() && Current() == old(Current()) && Since(old(sys.config), sys.config)
    {
      hide Enabled, Apply, Reachable;
      var steps: int := *;
      while steps > 0
        invariant Valid() && Current() == old(Current()) && Since(old(sys.config), sys.config)
      {
        steps := steps - 1;
        var act: Action := *;
        if Enabled(sys, act) && Foreign(act, key) {
          ReachableIsCoherent(sys);
          CoherentHistory(sys.config);
          ForeignKeepsPass(sys, act, key);
          StepsAreCounted(sys, act);
          Extend(sys, act);
          sys := Apply(sys, act);
        }
      }
    }

    /** The call the pass is at. Whoever issues it names it, and gets an answer that the stores allow. */
    method Issue(ghost call: Pc) returns (a: Answer)
      requires Valid() && Current().pc == call && !call.Done?
      modifies this
      ensures Valid() && Current() == Passes.Step(old(Current()), a)
      ensures NonNegative(a)
      ensures Since(old(sys.config), sys.config)
      ensures call.LoadConfig? ==> a == Loaded(sys.config.stored.config, sys.config.epoch)
    {
      hide Reachable, Lawful, Passes.Step;
      Interfere();
      a := *;
      var h: Hidden := *;
      var c := sys.config;
      if !Lawful(sys.world, sys.passes[key], c.stored.config, c.epoch, a, h) {
        a, h := Fallback(sys.passes[key], c), NOTHING;
        FallbackIsLawful(sys.world, sys.passes[key], c);
      }
      LawfulIsNonNegative(sys.world, sys.passes[key], c.stored.config, c.epoch, a, h);
      LoadsCache(sys.world, sys.passes[key], c, a, h);
      ReachableIsCoherent(sys);
      CoherentHistory(sys.config);
      CallsLeaveConfig(sys, key, a, h);
      Extend(sys, PassCalls(key, a, h));
      sys := Apply(sys, PassCalls(key, a, h));
    }

    // ---------- the calls, one by one ----------

    method Get() returns (a: Answer)
      requires Valid() && Current().pc.GetKro?
      modifies this
      ensures Valid() && Current() == AfterGetKro(old(Current()), a)
      ensures Since(old(sys.config), sys.config)
    {
      hide Valid;
      a := Issue(GetKro);
    }

    /** A merge patch: what is sent is how `patched` differs from `base`, which is the removal of the annotation. */
    method PatchAnnotation(patched: KroObject, base: KroObject) returns (a: Answer)
      requires Valid() && Current().pc.PatchAnnotation?
      requires base.View() == Current().obj && base.View().op != NoOperation
      requires patched.View() == base.View().(op := NoOperation)
      modifies this
      ensures Valid() && Current() == AfterPatchAnnotation(old(Current()), a)
      ensures Since(old(sys.config), sys.config)
    {
      hide Valid;
      a := Issue(Pc.PatchAnnotation);
    }

    /**
     The atomic load of the cached config: the very object that the handler has stored, and that others see.
     If the handler has been at work since the pointer was last looked at, it has stored a new one.
     */
    method LoadConfig(pointer: ConfigPointer) returns (config: ConfigObject?, ghost epoch: nat)
      requires Valid() && Current().pc.LoadConfig? && Synced(pointer)
      modifies this, pointer
      ensures Valid() && config == pointer.config && pointer.Apart({this, pointer})
      ensures pointer.config != old(pointer.config) && pointer.config != null ==> fresh(pointer.config.Repr)
      ensures config != null ==> config.Valid()
      ensures Current() == AfterLoadConfig(old(Current()),
        Loaded(if config == null then None else Some(config.View()), epoch))
    {
      hide Valid, ConfigObject.View, ConfigObject.Valid, MovesOn, AfterLoadConfig;
      var a := Issue(Pc.LoadConfig);
      epoch := a.epoch;
      if pointer.stores < sys.config.epoch {
        config := null;
        if a.config.Some? {
          config := DecodeConfig(a.config.value);
        }
        pointer.Store(config, sys.config.epoch);
      }
      config := pointer.config;
    }

    method GetForUpdate() returns (a: Answer)
      requires Valid() && Current().pc.GetForFinalizer?
      modifies this
      ensures Valid() && Current() == AfterGetForFinalizer(old(Current()), a)
    {
      hide Valid;
      a := Issue(GetForFinalizer);
    }

    /** The object carries a resource version, so the server refuses to create it. */
    method Create(obj: KroObject) returns (a: Answer)
      requires Valid() && Current().pc.RecreateKro? && obj.View() == Current().obj
      modifies this
      ensures Valid() && Current() == FailProgressing(old(Current()), "failed to add finalizer")
    {
      hide Valid;
      a := Issue(RecreateKro);
    }

    /** The whole object is sent. */
    method UpdateFinalizer(obj: KroObject) returns (a: Answer)
      requires Valid() && Current().pc.UpdateFinalizer? && obj.View() == Current().obj
      modifies this
      ensures Valid() && Current() == AfterUpdateFinalizer(old(Current()), a)
    {
      hide Valid;
      a := Issue(Pc.UpdateFinalizer);
    }

    method CheckRequest(c: ClusterKind) returns (a: Answer)
      requires Valid() && Current().pc == Pc.CheckRequest(c)
      modifies this
      ensures Valid() && Current() == AfterCheckRequest(old(Current()), c, a)
    {
      hide Valid;
      a := Issue(Pc.CheckRequest(c));
    }

    method ReconcileAccess() returns (a: Answer)
      requires Valid() && Current().pc.ReconcileAccess?
      modifies this
      ensures Valid() && Current() == AfterReconcileAccess(old(Current()), a)
      ensures NonNegative(a)
    {
      hide Valid;
      a := Issue(Pc.ReconcileAccess);
    }

    method GetCluster(c: ClusterKind) returns (a: Answer)
      requires Valid() && Current().pc == Pc.GetCluster(c)
      modifies this
      ensures Valid() && Current() == AfterGetCluster(old(Current()), c, a)
    {
      hide Valid;
      a := Issue(Pc.GetCluster(c));
    }

    method GetRequest(c: ClusterKind) returns (a: Answer)
      requires Valid() && Current().pc == Pc.GetRequest(c)
      modifies this
      ensures Valid() && Current() == AfterGetRequest(old(Current()), c, a)
    {
      hide Valid;
      a := Issue(Pc.GetRequest(c));
    }

    /** StableMCPNamespace is no remote call, but it can fail like one. */
    method ResolveNamespace() returns (a: Answer)
      requires Valid() && Current().pc.ResolveNamespace?
      modifies this
      ensures Valid() && Current() == AfterResolveNamespace(old(Current()), a)
    {
      hide Valid;
      a := Issue(Pc.ResolveNamespace);
    }

    method Look(task: Task, ghost rest: seq<Task>) returns (a: Answer)
      requires Valid() && Current().pc == Pc.Look(task, rest)
      modifies this
      ensures Valid() && Current() == AfterLook(old(Current()), task, rest, a)
    {
      hide Valid;
      a := Issue(Pc.Look(task, rest));
    }

    /** Giving up on a local check takes no call, but it is a step of the pass. */
    method GiveUp(reason: string, ghost rest: seq<Task>)
      requires Valid() && Current().pc == Pc.Look(Abort(reason), rest)
      modifies this
      ensures Valid() && Current() == FailProgressing(old(Current()), reason)
    {
      hide Valid;
      var _ := Issue(Pc.Look(Abort(reason), rest));
    }

    method WriteSecret(target: SecretRef, secret: Secret, ghost rest: seq<Task>) returns (a: Answer)
      requires Valid() && Current().pc == Write(PutSecret(target), rest, None) && secret == Current().carry
      modifies this
      ensures Valid() && Current() == AfterWrite(old(Current()), PutSecret(target), rest, a)
    {
      hide Valid;
      a := Issue(Write(PutSecret(target), rest, None));
    }

    method WriteNamespace(ghost rest: seq<Task>) returns (a: Answer)
      requires Valid() && Current().pc == Write(PutNamespace, rest, None)
      modifies this
      ensures Valid() && Current() == AfterWrite(old(Current()), PutNamespace, rest, a)
    {
      hide Valid;
      a := Issue(Write(PutNamespace, rest, None));
    }

    /** An update carries the version it is based on; a create carries none. */
    method WriteFlux(which: Which, spec: FluxSpec, ghost rest: seq<Task>, seen: Option<nat>) returns (a: Answer)
      requires Valid() && Current().pc == Write(PutFlux(which), rest, seen) && spec == Desired(Current(), which)
      modifies this
      ensures Valid() && Current() == AfterWrite(old(Current()), PutFlux(which), rest, a)
    {
      hide Valid;
      a := Issue(Write(PutFlux(which), rest, seen));
    }

    method CountRGDs() returns (a: Answer)
      requires Valid() && Current().pc.CountRGDs?
      modifies this
      ensures Valid() && Current() == AfterCountRGDs(old(Current()), a)
    {
      hide Valid;
      a := Issue(Pc.CountRGDs);
    }

    method DeleteObject(ghost i: nat, ref: FluxRef) returns (a: Answer)
      requires Valid() && Current().pc == Pc.DeleteObject(i, ref)
      modifies this
      ensures Valid() && Current() == AfterDeleteObject(old(Current()), i, ref, a)
    {
      hide Valid;
      a := Issue(Pc.DeleteObject(i, ref));
    }

    method GetObject(ghost i: nat, ref: FluxRef) returns (a: Answer)
      requires Valid() && Current().pc == ConfirmGone(i, ref)
      modifies this
      ensures Valid() && Current() == AfterConfirmGone(old(Current()), i, a)
    {
      hide Valid;
      a := Issue(ConfirmGone(i, ref));
    }

    method RevokeAccess() returns (a: Answer)
      requires Valid() && Current().pc.RevokeAccess?
      modifies this
      ensures Valid() && Current() == AfterRevokeAccess(old(Current()), a)
    {
      hide Valid;
      a := Issue(Pc.RevokeAccess);
    }

    method RemoveFinalizer(obj: KroObject) returns (a: Answer)
      requires Valid() && Current().pc.RemoveFinalizer? && obj.View() == Current().obj
      modifies this
      ensures Valid() && Current() == AfterRemoveFinalizer(old(Current()), a)
    {
      hide Valid;
      a := Issue(Pc.RemoveFinalizer);
    }

    /** A merge patch again: how the status differs from what it was, which is not nothing. */
    method PatchStatus(obj: KroObject, base: KroObject, ghost r: Outcome) returns (a: Answer)
      requires Valid() && Current().pc == Pc.PatchStatus(r) && obj.View() == Current().obj
      requires base.View().status == Current().snapshot && obj.View().status != base.View().status
      modifies this
      ensures Valid() && Current() == AfterPatchStatus(old(Current()), r, a)
    {
      hide Valid;
      a := Issue(Pc.PatchStatus(r));
    }
  }

  lemma CallsLeaveConfig(s: System, k: Key, a: Answer, h: Hidden)
    requires s.config.history != [] && Enabled(s, PassCalls(k, a, h))
    ensures Apply(s, PassCalls(k, a, h)).config == s.config
  {
    hide Effect, Passes.Step, Lawful;
  }

  lemma LoadsCache(w: World, p: Pass, c: Propagation, a: Answer, h: Hidden)
    requires Lawful(w, p, c.stored.config, c.epoch, a, h)
    ensures p.pc.LoadConfig? ==> a == Loaded(c.stored.config, c.epoch)
  {
    hide Written, RevokeRequests, NoRequests, AllGranted, RGDs;
  }
}
