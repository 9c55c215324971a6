/**
 The stores of the clusters, what an API call of a pass may answer and change (`Lawful`, `Effect`),
 and what everybody else may do to the stores between two calls (`Env`). Any call may fail.
 */
module Worlds {
  import opened Wrappers
  import opened Resources
  import opened Flux
  import opened Passes

  /**
   `clock` numbers writes (the source of resource versions); `replicas` remembers which secrets this
   operator has written; `homes` is where Kros were placed, see `Home`.
   */
  datatype World = World(
    kros: map<Key, Kro>,
    flux: map<FluxRef, FluxObject>,
    requests: map<RequestRef, AccessRequest>,
    secrets: map<SecretRef, Secret>,
    namespaces: set<Key>,
    rgds: map<Key, nat>,
    clock: nat,
    replicas: set<SecretRef>,
    homes: map<Key, Key>)

  /**
   The workload cluster that access for `k` leads to, by the name of some Kro. Placement is not this
   operator's business: several Kros may share a cluster.
   */
  function Home(w: World, k: Key): Key { if k in w.homes then w.homes[k] else k }

  /** Where a secret lies that is addressed through the access of a Kro. */
  function Place(w: World, r: SecretRef): SecretRef {
    if r.host.WorkloadHost? then r.(host := WorkloadHost(Home(w, r.host.key))) else r
  }

  function RGDs(w: World, k: Key): nat { if k in w.rgds then w.rgds[k] else 0 }

  predicate Live(w: World, k: Key, cluster: ClusterKind) {
    RequestRef(k, cluster) in w.requests && !w.requests[RequestRef(k, cluster)].deleting
  }

  predicate Granted(w: World, k: Key, cluster: ClusterKind) {
    RequestRef(k, cluster) in w.requests
      && w.requests[RequestRef(k, cluster)].granted && w.requests[RequestRef(k, cluster)].secretRef.Some?
  }

  function Required(needsWorkload: bool): set<ClusterKind> { if needsWorkload then {MCP, Workload} else {MCP} }

  predicate AllGranted(w: World, k: Key, needsWorkload: bool) {
    Granted(w, k, MCP) && (needsWorkload ==> Granted(w, k, Workload))
  }

  predicate AllLive(w: World, k: Key, needsWorkload: bool) {
    Live(w, k, MCP) && (needsWorkload ==> Live(w, k, Workload))
  }

  predicate NoRequests(w: World, k: Key) {
    RequestRef(k, MCP) !in w.requests && RequestRef(k, Workload) !in w.requests
  }

  predicate Gone(w: World, k: Key, which: Which) { RefOf(which, Tenant(k)) !in w.flux }

  predicate NoFlux(w: World, k: Key) {
    Gone(w, k, Oci) && Gone(w, k, Main) && Gone(w, k, Crds)
  }

  /** Its deletion was asked for and is not complete. */
  predicate Fading(w: World, ref: FluxRef) { ref in w.flux && w.flux[ref].deleting }

  predicate FadingRequest(w: World, r: RequestRef) { r in w.requests && w.requests[r].deleting }

  /** What an access provider call touches: requests created, or marked and removed. */
  datatype Hidden = Hidden(first: set<ClusterKind>, second: set<ClusterKind>)

  const NOTHING := Hidden({}, {})

  function MakeRequests(w: World, k: Key, made: set<ClusterKind>): (v: World)
    ensures v == w.(requests := v.requests)
  {
    w.(requests := map r: RequestRef | r in w.requests.Keys + (set c | c in made :: RequestRef(k, c)) ::
      if r in w.requests then w.requests[r] else AccessRequest(false, false, None))
  }

  function RevokeRequests(w: World, k: Key, h: Hidden): (v: World)
    ensures v == w.(requests := v.requests)
  {
    w.(requests := map r: RequestRef | r in w.requests && !(r.key == k && r.cluster in h.second) ::
      if r.key == k && r.cluster in h.first then w.requests[r].(deleting := true) else w.requests[r])
  }

  // ---------- the calls of a pass ----------

  /** The answer a read of `ref` may give in state `w`, a failure aside. */
  predicate ReadsKro(w: World, k: Key, a: Answer) {
    if a.GotKro? then k in w.kros && a.kro == w.kros[k] else a.NotFound? && k !in w.kros
  }

  predicate ReadsFlux(w: World, ref: FluxRef, a: Answer) {
    if a.GotFlux? then ref in w.flux && a.flux == w.flux[ref] else a.NotFound? && ref !in w.flux
  }

  predicate ReadsRequest(w: World, r: RequestRef, a: Answer) {
    if a.GotRequest? then r in w.requests && a.request == w.requests[r] else a.NotFound? && r !in w.requests
  }

  predicate ReadsSecret(w: World, r: SecretRef, a: Answer) {
    if a.GotSecret? then Place(w, r) in w.secrets && a.secret == w.secrets[Place(w, r)]
    else a.NotFound? && Place(w, r) !in w.secrets
  }

  function Bumped(w: World, kro: Kro): Kro { kro.(rv := w.clock + 1) }

  predicate LawfulLook(w: World, p: Pass, task: Task, a: Answer) {
    match task
    case ReadSecret(source) => ReadsSecret(w, source, a)
    case ReadKubeconfig(source) => ReadsSecret(w, source, a)
    case PutSecret(target) => ReadsSecret(w, target, a)
    case PutNamespace =>
      if a.Ok? then Home(w, p.key) in w.namespaces else a.NotFound? && Home(w, p.key) !in w.namespaces
    case ReadWorkloadRequest => ReadsRequest(w, RequestRef(p.key, Workload), a)
    case PutFlux(which) => ReadsFlux(w, RefOf(which, Tenant(p.key)), a)
    case Abort(_) => false
  }

  /** A create needs the object absent, an update needs the version it read. */
  predicate LawfulWrite(w: World, p: Pass, task: Task, seen: Option<nat>, a: Answer) {
    match task
    case PutFlux(which) =>
      var ref := RefOf(which, Tenant(p.key));
      && a.GotFlux?
      && (if seen.None? then ref !in w.flux else ref in w.flux && w.flux[ref].rv == seen.value)
      && a.flux == Written(w, p, which)
    case PutSecret(_) => a.Ok?
    case PutNamespace => a.Ok?
    case _ => false
  }

  function Written(w: World, p: Pass, which: Which): FluxObject {
    var ref := RefOf(which, Tenant(p.key));
    if ref in w.flux then Respecified(w.flux[ref], Desired(p, which), w.clock + 1)
    else FluxObject(Desired(p, which), 1, w.clock + 1, false, false, [])
  }

  /** Conditions are left alone, and another spec is another generation. */
  function Respecified(o: FluxObject, spec: FluxSpec, rv: nat): FluxObject {
    o.(spec := spec, rv := rv, generation := if spec == o.spec then o.generation else o.generation + 1)
  }

  /** The merge patch drops the annotation from whatever is stored. */
  predicate LawfulPatchAnnotation(w: World, k: Key, a: Answer) {
    if a.GotKro? then k in w.kros && a.kro == Bumped(w, w.kros[k].(op := NoOperation))
    else a.NotFound? && k !in w.kros
  }

  /** An update needs the version it read; the server adds no finalizer to a deleting object. */
  predicate LawfulUpdateFinalizer(w: World, p: Pass, a: Answer) {
    && a.GotKro? && p.key in w.kros && w.kros[p.key].rv == p.obj.rv
    && !w.kros[p.key].deleting
    && a.kro == Bumped(w, w.kros[p.key].(finalizer := true))
  }

  predicate LawfulRemoveFinalizer(w: World, p: Pass, a: Answer) {
    if a.GotKro? then
      && p.key in w.kros && w.kros[p.key].rv == p.obj.rv
      && a.kro == Bumped(w, w.kros[p.key].(finalizer := false))
    else a.NotFound? && p.key !in w.kros
  }

  /** The provider asks for what is required, and reports no delay only once all of it is granted. */
  predicate LawfulReconcileAccess(w: World, p: Pass, a: Answer, h: Hidden) {
    && h.first <= Required(p.needsWorkload)
    && (a.Failed? || (a.Delay? && a.seconds >= 0
        && (a.seconds == 0 ==> AllGranted(w, p.key, p.needsWorkload))))
  }

  /** A successful revocation has asked for every deletion, and reports no delay only once all are gone. */
  predicate LawfulRevoke(w: World, k: Key, a: Answer, h: Hidden) {
    var v := RevokeRequests(w, k, h);
    || a.Failed?
    || (&& a.Delay? && a.seconds >= 0
        && !Live(v, k, MCP) && !Live(v, k, Workload)
        && (a.seconds == 0 ==> NoRequests(v, k)))
  }

  predicate LawfulCount(w: World, k: Key, a: Answer) {
    if a.Counted? then a.n == RGDs(w, k) else a.NoSuchKind? && RGDs(w, k) == 0
  }

  predicate LawfulDelete(w: World, ref: FluxRef, a: Answer) {
    if a.Ok? then ref in w.flux else a.NotFound? && ref !in w.flux
  }

  predicate LawfulPatchStatus(w: World, k: Key, a: Answer) {
    if a.Ok? then k in w.kros else a.NotFound? && k !in w.kros
  }

  /** May the pending call of `p` answer `a`, in state `w`, with `h` behind the scenes? */
  predicate Lawful(w: World, p: Pass, cache: Option<ProviderConfig>, epoch: nat, a: Answer, h: Hidden) {
    match p.pc
    case GetKro => a.Failed? || ReadsKro(w, p.key, a)
    case PatchAnnotation => a.Failed? || LawfulPatchAnnotation(w, p.key, a)
    case LoadConfig => a == Loaded(cache, epoch)
    case GetForFinalizer => a.Failed? || ReadsKro(w, p.key, a)
    case RecreateKro => a.Failed?  // the object carries a resource version, so the server refuses to create it
    case UpdateFinalizer => a.Failed? || LawfulUpdateFinalizer(w, p, a)
    case CheckRequest(c) => a.Failed? || ReadsRequest(w, RequestRef(p.key, c), a)
    case ReconcileAccess => LawfulReconcileAccess(w, p, a, h)
    case GetCluster(_) => a.Failed? || a.GotCluster?
    case GetRequest(c) => a.Failed? || ReadsRequest(w, RequestRef(p.key, c), a)
    case ResolveNamespace => a.Failed? || a.Ok?
    case Look(task, _) => a.Failed? || LawfulLook(w, p, task, a)
    case Write(task, _, seen) => a.Failed? || LawfulWrite(w, p, task, seen, a)
    case CountRGDs => a.Failed? || LawfulCount(w, p.key, a)
    case DeleteObject(_, ref) => a.Failed? || LawfulDelete(w, ref, a)
    case ConfirmGone(_, ref) => a.Failed? || ReadsFlux(w, ref, a)
    case RevokeAccess => LawfulRevoke(w, p.key, a, h)
    case RemoveFinalizer => a.Failed? || LawfulRemoveFinalizer(w, p, a)
    case PatchStatus(_) => a.Failed? || LawfulPatchStatus(w, p.key, a)
    case Done(_) => false
  }

  function Tick(w: World): World { w.(clock := w.clock + 1) }

  function PutKro(w: World, k: Key, kro: Kro): (v: World)
    ensures v == w.(kros := v.kros, clock := v.clock)
  {
    if kro.deleting && !kro.finalizer && !kro.foreign then Tick(w.(kros := w.kros - {k}))
    else Tick(w.(kros := w.kros[k := kro]))
  }

  /** Storing the object a write returned. */
  function StoreAnswer(w: World, k: Key, a: Answer): (v: World)
    ensures v == w.(kros := v.kros, clock := v.clock)
  {
    if a.GotKro? then PutKro(w, k, a.kro) else w
  }

  function EffectOfLook(w: World, p: Pass, task: Task, a: Answer): (v: World)
    ensures v == w.(replicas := v.replicas) && w.replicas <= v.replicas
  {
    if task.PutSecret? && a.GotSecret? && a.secret == p.carry then
      w.(replicas := w.replicas + {Place(w, task.target)})
    else w
  }

  function EffectOfWrite(w: World, p: Pass, task: Task, a: Answer): (v: World)
    ensures v.flux.Keys <= w.flux.Keys
      + {RefOf(Oci, Tenant(p.key)), RefOf(Main, Tenant(p.key)), RefOf(Crds, Tenant(p.key))}
    ensures v.kros == w.kros && v.requests == w.requests && v.rgds == w.rgds && v.homes == w.homes
    ensures w.replicas <= v.replicas && w.secrets.Keys <= v.secrets.Keys && w.namespaces <= v.namespaces
  {
    if a.Failed? then w
    else match task
      case PutFlux(which) => Tick(w.(flux := w.flux[RefOf(which, Tenant(p.key)) := Written(w, p, which)]))
      case PutSecret(target) =>
        w.(secrets := w.secrets[Place(w, target) := p.carry], replicas := w.replicas + {Place(w, target)})
      case PutNamespace => w.(namespaces := w.namespaces + {Home(w, p.key)})
      case _ => w
  }

  /** A deletion request is a change, too. */
  function Condemned(o: FluxObject, rv: nat): FluxObject {
    o.(deleting := true, rv := rv, generation := if o.deleting then o.generation else o.generation + 1)
  }

  function RequestDeletion(w: World, ref: FluxRef): (v: World)
    ensures v == w.(flux := v.flux, clock := v.clock) && v.flux.Keys <= w.flux.Keys
  {
    if ref !in w.flux then w
    else if w.flux[ref].held then Tick(w.(flux := w.flux[ref := Condemned(w.flux[ref], w.clock + 1)]))
    else Tick(w.(flux := w.flux - {ref}))
  }

  function EffectOfDelete(w: World, ref: FluxRef, a: Answer): (v: World)
    ensures v == w.(flux := v.flux, clock := v.clock) && v.flux.Keys <= w.flux.Keys
  {
    if a.Ok? then RequestDeletion(w, ref) else w
  }

  function EffectOfPatchStatus(w: World, p: Pass, a: Answer): (v: World)
    ensures v == w.(kros := v.kros, clock := v.clock)
  {
    if a.Ok? && p.key in w.kros then PutKro(w, p.key, Bumped(w, w.kros[p.key].(status := p.obj.status))) else w
  }

  /** Calls that answer with the Kro as they have stored it. */
  predicate StoresAnswer(pc: Pc) { pc.PatchAnnotation? || pc.UpdateFinalizer? || pc.RemoveFinalizer? }

  /** What the pending call of `p` does to the stores when it answers `a`. */
  function Effect(w: World, p: Pass, a: Answer, h: Hidden): (v: World)
    ensures v.homes == w.homes
    ensures w.replicas <= v.replicas && w.secrets.Keys <= v.secrets.Keys && w.namespaces <= v.namespaces
    ensures v.flux.Keys <= w.flux.Keys
      + {RefOf(Oci, Tenant(p.key)), RefOf(Main, Tenant(p.key)), RefOf(Crds, Tenant(p.key))}
    ensures StoresAnswer(p.pc) ==> v == StoreAnswer(w, p.key, a)
    ensures p.pc.PatchStatus? ==> v == EffectOfPatchStatus(w, p, a)
    ensures p.pc.Write? ==> v == EffectOfWrite(w, p, p.pc.task, a)
    ensures p.pc.ReconcileAccess? ==> v == MakeRequests(w, p.key, h.first)
    ensures !p.pc.ReconcileAccess? && !p.pc.RevokeAccess? ==> v.requests == w.requests
    ensures !p.pc.Write? ==> v.secrets == w.secrets && v.namespaces == w.namespaces
    ensures !StoresAnswer(p.pc) && !p.pc.PatchStatus? ==> v.kros == w.kros
  {
    hide StoreAnswer, MakeRequests, EffectOfLook, EffectOfWrite, EffectOfDelete, RevokeRequests, EffectOfPatchStatus;
    match p.pc
    case PatchAnnotation => StoreAnswer(w, p.key, a)
    case UpdateFinalizer => StoreAnswer(w, p.key, a)
    case ReconcileAccess => MakeRequests(w, p.key, h.first)
    case Look(task, _) => EffectOfLook(w, p, task, a)
    case Write(task, _, _) => EffectOfWrite(w, p, task, a)
    case DeleteObject(_, ref) => EffectOfDelete(w, ref, a)
    case RevokeAccess => RevokeRequests(w, p.key, h)
    case RemoveFinalizer => StoreAnswer(w, p.key, a)
    case PatchStatus(_) => EffectOfPatchStatus(w, p, a)
    case _ => w
  }

  // ---------- everybody else ----------

  datatype Env =
    // tenants
    | UserCreates(k: Key, version: string, op: Operation, foreign: bool)
    | UserEdits(k: Key, version: string)
    | UserAnnotates(k: Key, op: Operation)
    | UserDeletes(k: Key)
    | ForeignReleases(k: Key)
    | UserSetsRGDs(k: Key, n: nat)
    // Flux
    | FluxReports(ref: FluxRef, conditions: seq<Condition>)
    | FluxHolds(ref: FluxRef)
    | FluxReleases(ref: FluxRef)
    // the access provider
    | ProviderGrants(r: RequestRef, name: string)
    | ProviderReleases(r: RequestRef)
    // whoever manages secrets
    | SomeoneStores(s: SecretRef, secret: Secret)
    | SomeoneDrops(s: SecretRef)
    // tampering with Flux objects
    | SomeoneForges(ref: FluxRef, spec: FluxSpec)
    | SomeoneDeletes(ref: FluxRef)

  /**
   The environment's rules: nobody else creates Flux objects or access requests, removes an access
   request that is not being deleted, touches this operator's finalizer, or takes back a deletion; and
   Flux observes no generation that is yet to come.
   */
  predicate Permitted(w: World, e: Env) {
    match e
    case UserCreates(k, _, _, _) => k !in w.kros
    case UserEdits(k, _) => k in w.kros
    case UserAnnotates(k, _) => k in w.kros
    case UserDeletes(k) => k in w.kros && !w.kros[k].deleting
    case ForeignReleases(k) => k in w.kros && w.kros[k].foreign
    case UserSetsRGDs(_, _) => true
    case FluxReports(ref, cs) =>
      ref in w.flux && forall i :: 0 <= i < |cs| ==> cs[i].observedGeneration <= w.flux[ref].generation
    case FluxHolds(ref) => ref in w.flux && !w.flux[ref].deleting
    case FluxReleases(ref) => ref in w.flux && w.flux[ref].held
    case ProviderGrants(r, _) => r in w.requests
    case ProviderReleases(r) => r in w.requests && w.requests[r].deleting
    case SomeoneStores(_, _) => true
    case SomeoneDrops(s) => s in w.secrets
    case SomeoneForges(ref, _) => ref in w.flux
    case SomeoneDeletes(ref) => ref in w.flux
  }

  /** Interference with what the operator replicated or wrote. */
  predicate Tampers(w: World, e: Env) {
    match e
    case SomeoneDrops(s) => s in w.replicas
    case SomeoneForges(_, _) => true
    case SomeoneDeletes(_) => true
    case _ => false
  }

  function Act(w: World, e: Env): (v: World)
    ensures v.homes == w.homes
    requires Permitted(w, e)
  {
    match e
    case UserCreates(k, version, op, foreign) =>
      PutKro(w, k, Kro(version, op, 1, w.clock + 1, false, false, foreign, EMPTY_STATUS))
    case UserEdits(k, version) =>
      PutKro(w, k, Bumped(w, w.kros[k].(version := version, generation := w.kros[k].generation + 1)))
    case UserAnnotates(k, op) => PutKro(w, k, Bumped(w, w.kros[k].(op := op)))
    case UserDeletes(k) =>
      PutKro(w, k, Bumped(w, w.kros[k].(deleting := true, generation := w.kros[k].generation + 1)))
    case ForeignReleases(k) => PutKro(w, k, Bumped(w, w.kros[k].(foreign := false)))
    case UserSetsRGDs(k, n) => w.(rgds := w.rgds[k := n])
    case FluxReports(ref, cs) =>
      Tick(w.(flux := w.flux[ref := w.flux[ref].(conditions := cs, rv := w.clock + 1)]))
    case FluxHolds(ref) => Tick(w.(flux := w.flux[ref := w.flux[ref].(held := true, rv := w.clock + 1)]))
    case FluxReleases(ref) =>
      if w.flux[ref].deleting then Tick(w.(flux := w.flux - {ref}))
      else Tick(w.(flux := w.flux[ref := w.flux[ref].(held := false, rv := w.clock + 1)]))
    case ProviderGrants(r, name) =>
      w.(requests := w.requests[r := w.requests[r].(granted := true, secretRef := Some(name))])
    case ProviderReleases(r) => w.(requests := w.requests - {r})
    case SomeoneStores(s, secret) => w.(secrets := w.secrets[s := secret])
    case SomeoneDrops(s) => w.(secrets := w.secrets - {s})
    case SomeoneForges(ref, spec) =>
      Tick(w.(flux := w.flux[ref := Respecified(w.flux[ref], spec, w.clock + 1)]))
    case SomeoneDeletes(ref) => RequestDeletion(w, ref)
  }
}
