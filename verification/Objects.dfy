/**
 The objects the operator holds in memory while it works, as the heap structures they are: slices
 shared by reference, optional fields behind pointers. `View` is the value an object stands for.
 */
module Objects {
  import opened Wrappers
  import opened Resources
  import opened Statuses
  import Versions

  /** The elements of a slice; a nil slice has none. */
  ghost function Elements<T>(slice: array?<T>): seq<T>
    reads slice
  {
    if slice == null then [] else slice[..]
  }

  /** The cell a pointer leads to. */
  ghost function Cell(o: object?): set<object> { if o == null then {} else {o} }

  /** The loop of DeepCopyInto over a slice of plain values: a nil slice stays nil. */
  method CopySlice<T(0)>(slice: array?<T>) returns (out: array?<T>)
    ensures out == null <==> slice == null
    ensures out != null ==> fresh(out)
    ensures Elements(out) == Elements(slice)
  {
    out := null;
    if slice != null {
      var made := new T[slice.Length];
      for i := 0 to slice.Length
        invariant forall j :: 0 <= j < i ==> made[j] == slice[j]
      {
        made[i] := slice[i];
      }
      out := made;
    }
  }

  /** Go's append, with a slice that is full: the elements move to a new one. */
  method Append<T(0)>(slice: array?<T>, x: T) returns (out: array<T>)
    ensures fresh(out) && out[..] == Elements(slice) + [x]
  {
    var n := if slice == null then 0 else slice.Length;
    out := new T[n + 1];
    if slice != null {
      for i := 0 to n
        invariant out[..i] == slice[..i]
      {
        out[i] := slice[i];
      }
    }
    out[n] := x;
  }

  /** DeepEqual on slices: nil and empty are the same. */
  method EqualSlices<T(==)>(a: array?<T>, b: array?<T>) returns (same: bool)
    ensures same <==> Elements(a) == Elements(b)
  {
    var m, n := if a == null then 0 else a.Length, if b == null then 0 else b.Length;
    if m != n {
      return false;
    }
    for i := 0 to n
      invariant forall j :: 0 <= j < i ==> a[j] == b[j]
    {
      if a[i] != b[i] {
        return false;
      }
    }
    return true;
  }

  const OPERATION_ANNOTATION := "openmcp.cloud/operation"
  const FINALIZER := "kro.services.open-control-plane.io/finalizer"

  /** A map, which whoever copies the reference to it shares. */
  class Dictionary {
    var entries: map<string, string>

    constructor (entries: map<string, string>)
      ensures this.entries == entries
    {
      this.entries := entries;
    }
  }

  ghost function Entries(d: Dictionary?): map<string, string>
    reads d
  {
    if d == null then map[] else d.entries
  }

  /** What the operation annotation asks for; other values mean nothing. */
  function OperationIn(entries: map<string, string>): Operation {
    if OPERATION_ANNOTATION !in entries then NoOperation
    else if entries[OPERATION_ANNOTATION] == "ignore" then Ignore
    else if entries[OPERATION_ANNOTATION] == "reconcile" then ReconcileNow
    else NoOperation
  }

  /** The finalizers of an object with or without ours and somebody else's. */
  function FinalizerNames(own: bool, foreign: bool): (names: seq<string>)
    ensures FINALIZER in names <==> own
    ensures (exists f :: f in names && f != FINALIZER) <==> foreign
  {
    var names := (if own then [FINALIZER] else []) + if foreign then ["foreground"] else [];
    assert |"foreground"| != |FINALIZER|;
    assert foreign ==> "foreground" in names;
    names
  }

  /** The others, in their order. */
  function Without(names: seq<string>, name: string): (others: seq<string>)
    ensures forall f :: f in others <==> f in names && f != name
  {
    if names == [] then []
    else
      var last := |names| - 1;
      assert names == names[..last] + [names[last]];
      Without(names[..last], name) + if names[last] == name then [] else [names[last]]
  }

  function Annotating(op: Operation): (entries: map<string, string>)
    ensures OperationIn(entries) == op
  {
    match op
    case NoOperation => map[]
    case Ignore => map[OPERATION_ANNOTATION := "ignore"]
    case ReconcileNow => map[OPERATION_ANNOTATION := "reconcile"]
  }

  /** A Kro in memory. Its status helpers work in place. */
  class KroObject {
    var version: string
    var annotations: Dictionary?
    var generation: nat
    var rv: nat
    var deleting: bool
    var finalizers: array?<string>
    var conditions: array?<Condition>
    var phase: InstancePhase
    var observedGeneration: nat
    var resources: array?<ManagedResource>

    ghost function Cells(): set<object>
      reads this
    {
      {this} + Cell(conditions) + Cell(resources) + Cell(annotations) + Cell(finalizers)
    }

    ghost function View(): Kro
      reads this, conditions, resources, annotations, finalizers
    {
      Kro(version, OperationIn(Entries(annotations)), generation, rv, deleting,
          FINALIZER in Elements(finalizers), exists f :: f in Elements(finalizers) && f != FINALIZER,
          Status(Elements(conditions), phase, observedGeneration, Elements(resources)))
    }

    /** An empty object, as emptyObj makes it. */
    constructor ()
      ensures fresh(Cells()) && View().status == EMPTY_STATUS
    {
      version, annotations, generation, rv, deleting, finalizers := "", null, 0, 0, false, null;
      conditions, phase, observedGeneration, resources := null, Unset, 0, null;
    }

    /** What a client call does with the object in its response: everything is overwritten. */
    method Decode(kro: Kro)
      modifies this
      ensures View() == kro && fresh(Cells() - {this}) && conditions != null && fresh(conditions)
    {
      hide OperationIn;
      SetMetadata(kro);
      SetStatus(kro.status);
    }

    method SetMetadata(kro: Kro)
      modifies this`version, this`annotations, this`generation, this`rv, this`deleting, this`finalizers
      ensures version == kro.version && generation == kro.generation && rv == kro.rv && deleting == kro.deleting
      ensures annotations != null && fresh(annotations) && OperationIn(annotations.entries) == kro.op
      ensures finalizers != null && fresh(finalizers) && (FINALIZER in finalizers[..] <==> kro.finalizer)
      ensures (exists f :: f in finalizers[..] && f != FINALIZER) <==> kro.foreign
    {
      hide Annotating, FinalizerNames, OperationIn;
      version, generation, rv, deleting := kro.version, kro.generation, kro.rv, kro.deleting;
      annotations := new Dictionary(Annotating(kro.op));
      SetFinalizers(FinalizerNames(kro.finalizer, kro.foreign));
    }

    method SetStatus(st: Status)
      modifies this`phase, this`observedGeneration, this`conditions, this`resources
      ensures conditions != null && fresh(conditions) && resources != null && fresh(resources)
      ensures Status(conditions[..], phase, observedGeneration, resources[..]) == st
    {
      hide View;
      phase, observedGeneration := st.phase, st.observedGeneration;
      SetConditions(st.conditions);
      SetResources(st.resources);
    }

    method SetFinalizers(names: seq<string>)
      modifies this`finalizers
      ensures finalizers != null && fresh(finalizers) && finalizers[..] == names
    {
      var made := new string[|names|];
      for i := 0 to |names|
        invariant made[..i] == names[..i]
      {
        made[i] := names[i];
      }
      finalizers := made;
    }

    predicate Says(operation: string)
      reads this, annotations
    {
      annotations != null && "openmcp.cloud/operation" in annotations.entries
      && annotations.entries["openmcp.cloud/operation"] == operation
    }

    /** What the operation annotation asks for. */
    method GetOperation() returns (op: Operation)
      ensures op == View().op
      ensures op == Ignore <==> Says("ignore")
      ensures op == ReconcileNow <==> Says("reconcile")
    {
      op := if annotations == null then NoOperation else OperationIn(annotations.entries);
    }

    /** The annotation is deleted from the map that the object refers to. */
    method DropOperation()
      modifies annotations
      ensures View() == old(View()).(op := NoOperation)
    {
      if annotations != null {
        annotations.entries := annotations.entries - {OPERATION_ANNOTATION};
      }
    }

    method SetConditions(cs: seq<Condition>)
      modifies this`conditions
      ensures conditions != null && fresh(conditions) && conditions[..] == cs
    {
      var made := new Condition[|cs|];
      for i := 0 to |cs|
        invariant made[..i] == cs[..i]
      {
        made[i] := cs[i];
      }
      conditions := made;
    }

    method SetResources(rs: seq<ManagedResource>)
      modifies this`resources
      ensures resources != null && fresh(resources) && resources[..] == rs
      ensures View() == old(View()).(status := old(View()).status.(resources := rs))
    {
      hide OperationIn;
      var made := new ManagedResource[|rs|];
      for i := 0 to |rs|
        invariant made[..i] == rs[..i]
      {
        made[i] := rs[i];
      }
      resources := made;
    }

    /** controllerutil.AddFinalizer: tells whether it was missing. */
    method AddFinalizer() returns (added: bool)
      modifies this`finalizers
      ensures added == !old(View()).finalizer && View() == old(View()).(finalizer := true)
      ensures Elements(finalizers) == old(Elements(finalizers)) + if added then [FINALIZER] else []
    {
      ghost var names := Elements(finalizers);
      var n := if finalizers == null then 0 else finalizers.Length;
      for i := 0 to n
        invariant FINALIZER !in names[..i]
      {
        if finalizers[i] == FINALIZER {
          return false;
        }
      }
      assert names[..n] == names;
      finalizers := Append(finalizers, FINALIZER);
      assert forall f :: f in Elements(finalizers) <==> f in names || f == FINALIZER;
      return true;
    }

    /** controllerutil.RemoveFinalizer: keeps all others, in order. */
    method RemoveFinalizer()
      modifies this`finalizers
      ensures View() == old(View()).(finalizer := false)
      ensures Elements(finalizers) == Without(old(Elements(finalizers)), FINALIZER)
    {
      ghost var names := Elements(finalizers);
      var kept: seq<string> := [];
      var n := if finalizers == null then 0 else finalizers.Length;
      for i := 0 to n
        invariant kept == Without(names[..i], FINALIZER)
      {
        assert names[..i + 1] == names[..i] + [names[i]];
        if finalizers[i] != FINALIZER {
          kept := kept + [finalizers[i]];
        }
      }
      assert names[..n] == names;
      SetFinalizers(kept);
    }

    /** DeepCopy: an equal object that shares no cell with this one. */
    method DeepCopy() returns (out: KroObject)
      ensures fresh(out.Cells())
      ensures out.View() == View() && Entries(out.annotations) == Entries(annotations)
      ensures Elements(out.finalizers) == Elements(finalizers)
    {
      var conditionsOut := CopySlice(conditions);
      var resourcesOut := CopySlice(resources);
      var finalizersOut := CopySlice(finalizers);
      var annotationsOut: Dictionary? := null;
      if annotations != null {
        annotationsOut := new Dictionary(annotations.entries);
      }
      out := new KroObject.Of(version, annotationsOut, generation, rv, deleting, finalizersOut,
        conditionsOut, phase, observedGeneration, resourcesOut);
    }

    /** A copy to which the trigger is gone. The map has to be a copy, too, or it would be gone from this as well. */
    method WithoutOperation() returns (out: KroObject)
      ensures fresh(out.Cells()) && out.View() == View().(op := NoOperation) && View() == old(View())
    {
      hide View;
      out := DeepCopy();
      out.DropOperation();
    }

    /** A composite literal: the slices and the map are shared with whoever passes them. */
    constructor Of(version: string, annotations: Dictionary?, generation: nat, rv: nat, deleting: bool,
        finalizers: array?<string>, conditions: array?<Condition>, phase: InstancePhase, observedGeneration: nat,
        resources: array?<ManagedResource>)
      ensures this.version == version && this.annotations == annotations && this.generation == generation
      ensures this.rv == rv && this.deleting == deleting && this.finalizers == finalizers
      ensures this.phase == phase && this.observedGeneration == observedGeneration
      ensures this.conditions == conditions && this.resources == resources
    {
      this.version, this.annotations, this.generation, this.rv := version, annotations, generation, rv;
      this.deleting, this.finalizers := deleting, finalizers;
      this.conditions, this.phase, this.observedGeneration := conditions, phase, observedGeneration;
      this.resources := resources;
    }

    /** DeepEqual of the two statuses. */
    method SameStatus(other: KroObject) returns (same: bool)
      ensures same <==> View().status == other.View().status
    {
      var conditionsSame := EqualSlices(conditions, other.conditions);
      var resourcesSame := EqualSlices(resources, other.resources);
      same := conditionsSame && resourcesSame && phase == other.phase && observedGeneration == other.observedGeneration;
    }

    /** meta.FindStatusCondition, as a position. */
    method FindCondition(kind: string) returns (i: nat)
      ensures i == Find(Elements(conditions), kind)
    {
      i := 0;
      if conditions != null {
        while i < conditions.Length && conditions[i].kind != kind
          invariant i <= conditions.Length
          invariant forall j :: 0 <= j < i ==> conditions[j].kind != kind
        {
          i := i + 1;
        }
        if i < conditions.Length { FindIsUnique(conditions[..], kind, i); }
      }
    }

    /** meta.SetStatusCondition: field by field in the slot found, or appended in a grown slice. */
    method SetStatusCondition(c: Condition, now: nat)
      modifies this`conditions, conditions
      ensures Elements(conditions) == SetCondition(old(Elements(conditions)), c, now)
      ensures if Find(old(Elements(conditions)), c.kind) < |old(Elements(conditions))|
        then conditions == old(conditions) else fresh(conditions)
    {
      var i := FindCondition(c.kind);
      if conditions != null && i < conditions.Length {
        if conditions[i].status != c.status {
          conditions[i] := conditions[i].(status := c.status, lastTransition := now);
        }
        conditions[i] := conditions[i].(reason := c.reason, message := c.message);
        conditions[i] := conditions[i].(observedGeneration := c.observedGeneration);
      } else {
        conditions := Append(conditions, c.(lastTransition := now));
      }
    }

    /** The common part of the status helpers: condition, observed generation, phase. */
    method Report(now: nat, ready: ConditionStatus, reason: string, message: string, reported: InstancePhase)
      modifies this`conditions, this`observedGeneration, this`phase, conditions
      ensures View() == Mark(old(View()), now, ready, reason, message, reported)
      ensures conditions == old(conditions) || fresh(conditions)
    {
      SetStatusCondition(Condition(READY, ready, generation, reason, message, now), now);
      observedGeneration := generation;
      phase := reported;
    }

    method StatusProgressing(now: nat, reason: string, message: string)
      modifies this`conditions, this`observedGeneration, this`phase, conditions
      ensures View() == MarkProgressing(old(View()), now, reason, message)
      ensures conditions == old(conditions) || fresh(conditions)
    {
      Report(now, CondFalse, reason, message, Progressing);
    }

    method StatusReady(now: nat)
      modifies this`conditions, this`observedGeneration, this`phase, conditions
      ensures View() == MarkReady(old(View()), now)
      ensures conditions == old(conditions) || fresh(conditions)
    {
      Report(now, CondTrue, "ReconcileSuccess", "Domain Service is ready", Ready);
    }

    method StatusTerminatingWithReason(now: nat, reason: string, message: string)
      modifies this`conditions, this`observedGeneration, this`phase, conditions
      ensures View() == MarkTerminatingWithReason(old(View()), now, reason, message)
      ensures conditions == old(conditions) || fresh(conditions)
    {
      Report(now, CondFalse, reason, message, Terminating);
    }

    method StatusTerminating(now: nat)
      modifies this`conditions, this`observedGeneration, this`phase, conditions
      ensures View() == MarkTerminating(old(View()), now)
      ensures conditions == old(conditions) || fresh(conditions)
    {
      Report(now, CondFalse, "Terminating", "Cleanup in progress", Terminating);
    }

    method StatusTerminatingMessage(now: nat, message: string)
      modifies this`conditions, this`observedGeneration, this`phase, conditions
      ensures View() == MarkTerminatingWithReason(old(View()), now, "Terminating", message)
      ensures conditions == old(conditions) || fresh(conditions)
    {
      StatusTerminatingWithReason(now, "Terminating", message);
    }
  }

  /** A value behind a pointer. */
  class Box<T> {
    var value: T

    constructor (value: T)
      ensures this.value == value
    {
      this.value := value;
    }
  }

  /** A KroVersion as it lies in a slice: its optional fields are pointers. */
  datatype VersionCell = VersionCell(
    version: string,
    chartVersion: string,
    chartURL: Box?<string>,
    chartPullSecret: string,
    helmValues: Box?<Json>)

  ghost function Content<T>(b: Box?<T>): Option<T>
    reads b
  {
    if b == null then None else Some(b.value)
  }

  ghost function VersionView(c: VersionCell): KroVersion
    reads Boxes(c)
  {
    KroVersion(c.version, c.chartVersion, Content(c.chartURL), c.chartPullSecret, Content(c.helmValues))
  }

  /** The pointers of a version entry. */
  ghost function Boxes(c: VersionCell): set<object> {
    Cell(c.chartURL) + Cell(c.helmValues)
  }

  ghost function AllBoxes(cs: seq<VersionCell>): set<object> {
    set c, o | c in cs && o in Boxes(c) :: o
  }

  ghost function VersionViews(cs: seq<VersionCell>): (vs: seq<KroVersion>)
    reads AllBoxes(cs)
    ensures |vs| == |cs| && forall i :: 0 <= i < |cs| ==> vs[i] == VersionView(cs[i])
  {
    seq(|cs|, i requires 0 <= i < |cs| reads AllBoxes(cs) => VersionView(cs[i]))
  }

  /** A pointer's target, copied. */
  method CopyBox<T>(b: Box?<T>) returns (out: Box?<T>)
    ensures Content(out) == Content(b) && fresh(Cell(out))
  {
    out := null;
    if b != null {
      out := new Box(b.value);
    }
  }

  /** KroVersion's DeepCopyInto: every pointer gets a cell of its own. */
  method CopyVersion(c: VersionCell) returns (out: VersionCell)
    ensures VersionView(out) == VersionView(c) && fresh(Boxes(out))
  {
    var url := CopyBox(c.chartURL);
    var values := CopyBox(c.helmValues);
    out := c.(chartURL := url, helmValues := values);
  }

  /** A ProviderConfig in memory, as the cache holds it. */
  class ConfigObject {
    var versions: array?<VersionCell>
    var pollInterval: Box?<int>

    /** Every cell the config consists of. */
    ghost const Repr: set<object>

    ghost predicate Valid()
      reads this, Repr
    {
      && this in Repr && Cell(versions) <= Repr && Cell(pollInterval) <= Repr
      && (versions != null ==> versions in Repr && AllBoxes(versions[..]) <= Repr)
    }

    constructor (versions: array?<VersionCell>, pollInterval: Box?<int>)
      ensures this.versions == versions && this.pollInterval == pollInterval
      ensures Valid() && Repr == {this} + Cell(versions) + Cell(pollInterval) + AllBoxes(Elements(versions))
    {
      this.versions, this.pollInterval := versions, pollInterval;
      Repr := {this} + Cell(versions) + Cell(pollInterval) + AllBoxes(Elements(versions));
    }

    ghost function View(): (v: ProviderConfig)
      requires Valid()
      reads this, Repr
      ensures v.pollInterval == Content(pollInterval)
    {
      ProviderConfig(VersionViews(Elements(versions)), Content(pollInterval))
    }

    /** DeepCopy: an equal config none of whose cells, pointers behind pointers included, is shared. */
    method DeepCopy() returns (out: ConfigObject)
      requires Valid()
      ensures out.Valid() && fresh(out.Repr) && out.View() == View()
    {
      hide AllBoxes;
      var copied := CopyVersions(versions);
      var interval := CopyBox(pollInterval);
      out := new ConfigObject(copied, interval);
    }

    /** The interval of the spec, or the default if it has none. */
    method PollInterval() returns (seconds: int)
      requires Valid()
      ensures seconds == if pollInterval == null then 60 else pollInterval.value
    {
      if pollInterval == null {
        return Versions.DEFAULT_POLL_INTERVAL;
      }
      return pollInterval.value;
    }

    /** The list walk of ResolveVersion: the first entry offering the version, or all that is offered instead. */
    method ResolveVersion(version: string) returns (r: Result<VersionCell, Versions.VersionError>)
      requires Valid()
      ensures r.Success? ==> r.value in Elements(versions)
      ensures r.Success? ==> Versions.Resolve(Some(View()), version) == Success(VersionView(r.value))
      ensures r.Failure? ==> Versions.Resolve(Some(View()), version) == Failure(r.error)
    {
      ghost var offers := View().versions;
      var available: seq<string> := [];
      var n := if versions == null then 0 else versions.Length;
      for i := 0 to n
        invariant available == Versions.Offered(offers)[..i]
        invariant forall j :: 0 <= j < i ==> versions[j].version != version
      {
        if versions[i].version == version {
          assert Versions.FirstOffer(offers, version) == i;
          return Success(versions[i]);
        }
        available := available + [versions[i].version];
      }
      assert available == Versions.Offered(offers);
      if |available| == 0 {
        return Failure(Versions.NothingOffered(version));
      }
      return Failure(Versions.NotOffered(version, available));
    }
  }

  /** The loop of ProviderConfigSpec's DeepCopyInto over the version entries. */
  method CopyVersions(cells: array?<VersionCell>) returns (out: array?<VersionCell>)
    ensures out == null <==> cells == null
    ensures out != null ==> fresh(out)
    ensures fresh(AllBoxes(Elements(out)))
    ensures VersionViews(Elements(out)) == VersionViews(Elements(cells))
  {
    out := null;
    if cells != null {
      var made := new VersionCell[cells.Length](i => VersionCell("", "", null, "", null));
      for i := 0 to cells.Length
        invariant forall j :: 0 <= j < i ==> VersionView(made[j]) == VersionView(cells[j]) && fresh(Boxes(made[j]))
      {
        made[i] := CopyVersion(cells[i]);
      }
      out := made;
    }
  }

  /** An atomic pointer to a config, in which `stores` tells which write of the cache it is at. */
  class ConfigPointer {
    var config: ConfigObject?
    var stores: nat

    constructor ()
      ensures config == null && stores == 0
    {
      config, stores := null, 0;
    }

    /** The config pointed to stands for `value`. */
    ghost predicate Holds(value: Option<ProviderConfig>)
      reads this, config, if config == null then {} else config.Repr
    {
      if config == null then value.None? else config.Valid() && value == Some(config.View())
    }

    /** None of `others` is part of it. */
    ghost predicate Apart(others: set<object>)
      reads this, config
    {
      config != null ==> config.Repr !! others
    }

    method Store(config: ConfigObject?, stores: nat)
      modifies this
      ensures this.config == config && this.stores == stores
    {
      this.config, this.stores := config, stores;
    }
  }

  /** A config as a client decodes it: everything newly allocated. */
  method DecodeConfig(config: ProviderConfig) returns (out: ConfigObject)
    ensures out.Valid() && fresh(out.Repr) && out.View() == config
  {
    var cells := new VersionCell[|config.versions|](i => VersionCell("", "", null, "", null));
    for i := 0 to |config.versions|
      invariant forall j :: 0 <= j < i ==> VersionView(cells[j]) == config.versions[j] && fresh(Boxes(cells[j]))
    {
      var v := config.versions[i];
      var url := DecodeOption(v.chartURL);
      var values := DecodeOption(v.helmValues);
      cells[i] := VersionCell(v.version, v.chartVersion, url, v.chartPullSecret, values);
    }
    var interval := DecodeOption(config.pollInterval);
    out := new ConfigObject(cells, interval);
    assert VersionViews(Elements(cells)) == config.versions;
  }

  method DecodeOption<T>(o: Option<T>) returns (b: Box?<T>)
    ensures Content(b) == o && fresh(Cell(b))
  {
    b := null;
    if o.Some? {
      b := new Box(o.value);
    }
  }

  /** The value a version entry stands for. */
  method LoadVersion(c: VersionCell) returns (v: KroVersion)
    ensures v == VersionView(c)
  {
    v := KroVersion(c.version, c.chartVersion, None, c.chartPullSecret, None);
    if c.chartURL != null {
      v := v.(chartURL := Some(c.chartURL.value));
    }
    if c.helmValues != null {
      v := v.(helmValues := Some(c.helmValues.value));
    }
  }
}
