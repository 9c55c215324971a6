/**
 The two ends of config propagation as the imperative code they are: PCReconciler, which tells of
 changes, and the channel handler of SPReconciler, which stores what it is told and enqueues every Kro.
 */
module Notifier {
  import opened Wrappers
  import opened Resources
  import opened Worlds
  import opened Operator
  import opened Coherence
  import opened Objects
  import Wakeups

  /** Steps of the sender: reading the ProviderConfig and sending on the channel. */
  predicate Sends(a: Action) { a.ConfigObserved? || a == ConfigSent }

  /** Steps of the handler: receiving, listing, enqueueing. */
  predicate Handles(a: Action) { a == ConfigReceived || a.KrosListed? || a.KroEnqueued? }

  lemma OthersKeepSender(s: System, a: Action)
    requires s.config.history != [] && Enabled(s, a) && !Sends(a) && a != Restart
    ensures Apply(s, a).config.sending == s.config.sending
    ensures s.config.history <= Apply(s, a).config.history && (s.config.unseen ==> Apply(s, a).config.unseen)
  {
    hide Effect, Act, Passes.Step, Lawful, Permitted, Settle;
  }

  lemma OthersKeepHandler(s: System, a: Action)
    requires s.config.history != [] && Enabled(s, a) && !Handles(a) && a != Restart
    ensures var c, d := s.config, Apply(s, a).config;
      d.handler == c.handler && d.stored == c.stored && d.epoch == c.epoch && c.channel <= d.channel
  {
    hide Effect, Act, Passes.Step, Lawful, Permitted, Settle;
  }

  /** What both ends share with everybody else; the object that was sent last; whether the last listing went well. */
  class Bus {
    var sys: System
    var sent: ConfigObject?
    var listed: bool

    ghost predicate Valid()
      reads this
    {
      Reachable(sys) && sys.config.history != []
    }

    constructor (sys: System)
      requires Reachable(sys) && sys.config.history != []
      ensures this.sys == sys && Valid()
    {
      this.sys := sys;
      sent := null;
      listed := false;
    }

    /** A step of whoever calls. */
    method Take(a: Action)
      requires Valid() && Enabled(sys, a)
      modifies this`sys
      ensures Valid() && sys == Apply(old(sys), a)
    {
      hide Reachable, Enabled;
      Extend(sys, a);
      sys := Apply(sys, a);
      ReachableIsCoherent(sys);
      CoherentHistory(sys.config);
    }

    /** Others move while the sender waits. */
    method SenderWaits()
      requires Valid()
      modifies this`sys
      ensures Valid() && sys.config.sending == old(sys.config.sending)
      ensures old(sys.config.history) <= sys.config.history && (old(sys.config.unseen) ==> sys.config.unseen)
    {
      hide Enabled, Apply, Reachable;
      var steps: int := *;
      while steps > 0
        invariant Valid() && sys.config.sending == old(sys.config.sending)
        invariant old(sys.config.history) <= sys.config.history && (old(sys.config.unseen) ==> sys.config.unseen)
      {
        steps := steps - 1;
        var act: Action := *;
        if Enabled(sys, act) && !Sends(act) && act != Restart {
          OthersKeepSender(sys, act);
          Take(act);
        }
      }
    }

    /** Others move while the handler waits. */
    method HandlerWaits()
      requires Valid()
      modifies this`sys
      ensures Valid() && sys.config.handler == old(sys.config.handler) && sys.config.stored == old(sys.config.stored)
      ensures sys.config.epoch == old(sys.config.epoch) && old(sys.config.channel) <= sys.config.channel
      ensures old(Wakeups.AllCovered(sys)) ==> Wakeups.AllCovered(sys)
    {
      hide Enabled, Apply, Reachable;
      var steps: int := *;
      while steps > 0
        invariant Valid() && sys.config.handler == old(sys.config.handler)
          && sys.config.stored == old(sys.config.stored)
        invariant sys.config.epoch == old(sys.config.epoch) && old(sys.config.channel) <= sys.config.channel
        invariant old(Wakeups.AllCovered(sys)) ==> Wakeups.AllCovered(sys)
      {
        steps := steps - 1;
        var act: Action := *;
        if Enabled(sys, act) && !Handles(act) && act != Restart {
          OthersKeepHandler(sys, act);
          if Wakeups.AllCovered(sys) { Wakeups.StepKeepsAllCovered(sys, act); }
          Take(act);
        }
      }
    }

    /**
     The sender's Get of the ProviderConfig; it may fail, and may find none. Nothing says that the client holds
     no part of the object it returns.
     */
    method Get() returns (ok: bool, obj: ConfigObject?, deleting: bool, ghost at: nat)
      requires Valid() && sys.config.unseen && sys.config.sending.None?
      modifies this`sys
      ensures Valid() && at < |sys.config.history| && (obj != null ==> obj.Valid() && this !in obj.Repr)
      ensures ok ==> sys.config.history[at] == if obj == null then Absent else LiveConfig.Present(obj.View(), deleting)
      ensures sys.config.sending == Some(Message(at, if ok then Effective(sys.config.history[at]) else None, ok))
      ensures !ok ==> sys.config.unseen
    {
      hide Reachable;
      SenderWaits();
      ok := *;
      at := |sys.config.history| - 1;
      var live := if ok then sys.config.history[|sys.config.history| - 1] else Absent;
      Take(ConfigObserved(ok));
      obj, deleting := null, live.Present? && live.deleting;
      if live.Present? {
        obj := DecodeConfig(live.config);
      }
    }

    /** The send on the unbuffered channel. */
    method Send(notify: ConfigObject?)
      requires Valid() && sys.config.sending.Some? && (notify != null ==> notify.Valid() && this !in notify.Repr)
      requires sys.config.sending.value.config == if notify == null then None else Some(notify.View())
      modifies this
      ensures Valid() && sys.config.sending.None? && sent == notify
      ensures var c := sys.config.channel; c != [] && Some(c[|c| - 1]) == old(sys.config.sending)
      ensures old(sys.config.history) <= sys.config.history && (old(sys.config.unseen) ==> sys.config.unseen)
    {
      hide Reachable, ConfigObject.View, ConfigObject.Valid;
      SenderWaits();
      Take(ConfigSent);
      sent := notify;
    }

    /** The handler takes the oldest notification; for all it knows, others hold the object, too. */
    method Receive() returns (config: ConfigObject?)
      requires Valid() && sys.config.handler.Waiting? && sys.config.channel != []
      modifies this`sys
      ensures Valid() && sys.config.handler.Listing? && sys.config.epoch == old(sys.config.epoch) + 1
      ensures sys.config.stored == old(sys.config.channel)[0]
      ensures if config == null then sys.config.stored.config.None?
        else config.Valid() && this !in config.Repr && sys.config.stored.config == Some(config.View())
    {
      hide Reachable;
      HandlerWaits();
      Take(ConfigReceived);
      config := null;
      if sys.config.stored.config.Some? {
        config := DecodeConfig(sys.config.stored.config.value);
      }
    }

    /** The list of all Kros, or nothing if it fails. */
    method List() returns (items: Option<seq<Key>>)
      requires Valid() && sys.config.handler.Listing?
      modifies this`sys, this`listed
      ensures Valid() && sys.config.stored == old(sys.config.stored) && sys.config.epoch == old(sys.config.epoch)
      ensures sys.config.handler == ToAdd(if items.Some? then Keys(items.value) else {})
      ensures items.Some? ==> Distinct(items.value) && Keys(items.value) == sys.world.kros.Keys
      ensures (listed <==> items.Some?) && (listed ==> Wakeups.AllCovered(sys))
    {
      hide Reachable, Wakeups.AllCovered;
      HandlerWaits();
      Wakeups.ListingCoversAll(sys);
      var ok: bool := *;
      items := None;
      if ok {
        var keys := InSomeOrder(sys.world.kros.Keys);
        items := Some(keys);
        if sys.world.kros == map[] { assert Keys(keys) == {}; }
        Wakeups.StepKeepsAllCovered(sys, KrosListed(true));
      }
      Take(KrosListed(ok));
      listed := ok;
    }

    /** The handler adds one request to the work queue. */
    method Enqueue(k: Key)
      requires Valid() && sys.config.handler.Enqueueing? && k in sys.config.handler.keys
      modifies this`sys
      ensures Valid() && sys.config.stored == old(sys.config.stored) && sys.config.epoch == old(sys.config.epoch)
      ensures sys.config.handler == ToAdd(old(sys.config.handler).keys - {k}) && k in sys.queue.ready
      ensures old(Wakeups.AllCovered(sys)) ==> Wakeups.AllCovered(sys)
    {
      hide Reachable, Wakeups.AllCovered;
      HandlerWaits();
      if Wakeups.AllCovered(sys) { Wakeups.StepKeepsAllCovered(sys, KroEnqueued(k)); }
      Take(KroEnqueued(k));
    }
  }

  /** The handler with some requests still to add. */
  function ToAdd(keys: set<Key>): Handler { if keys == {} then Waiting else Enqueueing(keys) }

  function Keys(s: seq<Key>): set<Key> { set k | k in s }

  ghost predicate Distinct(s: seq<Key>) { forall i, j :: 0 <= i < j < |s| ==> s[i] != s[j] }

  /** The elements of a set, in some order. */
  method InSomeOrder(keys: set<Key>) returns (s: seq<Key>)
    ensures Keys(s) == keys && Distinct(s)
  {
    s := [];
    var left := keys;
    while left != {}
      invariant Keys(s) == keys - left && left <= keys && Distinct(s)
    {
      var k :| k in left;
      assert k !in Keys(s) && Keys(s + [k]) == Keys(s) + {k};
      s := s + [k];
      left := left - {k};
    }
  }

  /** The Kro is pending, or dealt with under the config that is cached now. */
  ghost predicate Reached(s: System, k: Key) {
    || k in s.queue.ready || k in s.queue.retry
    || (k in s.passes && Wakeups.UpToDate(s.passes[k], s.config.epoch))
    || (k in s.queue.used && s.queue.used[k] == s.config.epoch)
  }

  class PCReconciler {
    const bus: Bus

    constructor (bus: Bus)
      ensures this.bus == bus
    {
      this.bus := bus;
    }

    /**
     Tell of the ProviderConfig as it is now: nil if it is gone, going, or cannot be read. What is sent is a copy
     that shares no cell with anything there was before.
     */
    method Reconcile() returns (failed: bool, ghost sent: Message)
      requires bus.Valid() && bus.sys.config.unseen && bus.sys.config.sending.None?
      modifies bus
      ensures bus.Valid() && bus.sys.config.sending.None?
      ensures var c := bus.sys.config.channel; c != [] && c[|c| - 1] == sent
      ensures sent.at < |bus.sys.config.history| && sent.clean == !failed
      ensures sent.config ==
        if failed || bus.sys.config.history[sent.at].Absent? || bus.sys.config.history[sent.at].deleting then None
        else Some(bus.sys.config.history[sent.at].config)
      ensures failed ==> bus.sys.config.unseen
      ensures bus.sent != null ==>
        fresh(bus.sent.Repr) && bus.sent.Valid() && sent.config == Some(bus.sent.View())
      ensures bus.sent == null ==> sent.config.None?
    {
      hide Bus.Valid, ConfigObject.View, ConfigObject.Valid;
      var ok, obj, deleting, at := bus.Get();
      sent := bus.sys.config.sending.value;
      if !ok || obj == null {
        bus.Send(null);
        return !ok, sent;
      }
      if deleting {
        bus.Send(null);
        return false, sent;
      }
      var notify := obj.DeepCopy();
      bus.Send(notify);
      return false, sent;
    }
  }

  /** The receiving half of SPReconciler: the handler on the channel, and the pointer to the cache that it writes. */
  class ConfigHandler {
    const bus: Bus
    const providerConfig: ConfigPointer

    constructor (bus: Bus, providerConfig: ConfigPointer)
      ensures this.bus == bus && this.providerConfig == providerConfig
    {
      this.bus, this.providerConfig := bus, providerConfig;
    }

    /** The handler stores a copy of its own, whoever may hold the original. */
    method Store(received: ConfigObject?)
      requires received != null ==> received.Valid()
      modifies providerConfig
      ensures providerConfig.Holds(if received == null then None else Some(old(received.View())))
      ensures providerConfig.config != null ==> fresh(providerConfig.config.Repr)
      ensures providerConfig.stores == bus.sys.config.epoch
    {
      hide ConfigObject.View, ConfigObject.Valid;
      var copy: ConfigObject? := null;
      if received != null {
        copy := received.DeepCopy();
      }
      providerConfig.Store(copy, bus.sys.config.epoch);
    }

    /** A request for every Kro there is, or none if they cannot be listed. */
    method EnqueueAllObjects() returns (reqs: array<Key>)
      requires bus.Valid() && bus.sys.config.handler.Listing?
      modifies bus
      ensures bus.Valid() && fresh(reqs) && bus.sys.config.handler == ToAdd(Keys(reqs[..])) && Distinct(reqs[..])
      ensures Keys(reqs[..]) == if bus.listed then bus.sys.world.kros.Keys else {}
      ensures bus.listed ==> Wakeups.AllCovered(bus.sys)
      ensures bus.sys.config.stored == old(bus.sys.config.stored) && bus.sys.config.epoch == old(bus.sys.config.epoch)
    {
      hide Bus.Valid, Wakeups.AllCovered;
      var items := bus.List();
      if items.None? {
        reqs := new Key[0];
        return;
      }
      reqs := new Key[|items.value|];
      for i := 0 to |items.value|
        modifies reqs
        invariant reqs[..i] == items.value[..i]
      {
        reqs[i] := items.value[i];
      }
      assert reqs[..] == items.value;
    }

    /** The work queue takes the requests; none that is covered by waiting for it ceases to be. */
    method EnqueueEach(reqs: seq<Key>)
      requires bus.Valid() && bus.sys.config.handler == ToAdd(Keys(reqs)) && Distinct(reqs)
      modifies bus
      ensures bus.Valid() && bus.sys.config.handler.Waiting?
      ensures bus.sys.config.stored == old(bus.sys.config.stored) && bus.sys.config.epoch == old(bus.sys.config.epoch)
      ensures old(Wakeups.AllCovered(bus.sys)) ==> Wakeups.AllCovered(bus.sys)
      ensures bus.listed == old(bus.listed)
    {
      hide Bus.Valid, Wakeups.AllCovered;
      for i := 0 to |reqs|
        invariant bus.Valid() && bus.sys.config.handler == ToAdd(Keys(reqs[i..]))
        invariant bus.sys.config.stored == old(bus.sys.config.stored)
          && bus.sys.config.epoch == old(bus.sys.config.epoch)
        invariant old(Wakeups.AllCovered(bus.sys)) ==> Wakeups.AllCovered(bus.sys)
        invariant bus.listed == old(bus.listed)
      {
        assert reqs[i] == reqs[i..][0] && reqs[i] in Keys(reqs[i..]) && reqs[i] !in reqs[i + 1..];
        assert Keys(reqs[i..]) - {reqs[i]} == Keys(reqs[i + 1..]);
        bus.Enqueue(reqs[i]);
      }
    }

    /**
     One notification: store a copy of it, all of whose cells are new, in place of the cached config, then have
     every Kro reconciled. If they could be listed, each that is to be reconciled is then queued or backing off, or
     a pass for it is to load the new config, or has.
     */
    method OnUpdate()
      requires bus.Valid() && bus.sys.config.handler.Waiting? && bus.sys.config.channel != []
      modifies bus, providerConfig
      ensures bus.Valid() && bus.sys.config.handler.Waiting?
      ensures providerConfig.Holds(bus.sys.config.stored.config) && providerConfig.stores == bus.sys.config.epoch
      ensures providerConfig.config != null ==> fresh(providerConfig.config.Repr)
      ensures bus.sys.config.stored == old(bus.sys.config.channel)[0]
        && bus.sys.config.epoch == old(bus.sys.config.epoch) + 1
      ensures bus.listed ==> forall k :: Wakeups.Wanted(bus.sys.world, k) ==> Reached(bus.sys, k)
    {
      hide Bus.Valid, ConfigObject.View, ConfigObject.Valid;
      var received := bus.Receive();
      Store(received);
      var reqs := EnqueueAllObjects();
      EnqueueEach(reqs[..]);
    }
  }
}
