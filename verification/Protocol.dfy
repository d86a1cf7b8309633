/**
  The request protocol of the API server (internal/apiserver/handlers.go) as a step
  machine. Each request is one program counter; each step is one store call. Requests
  interleave freely, any call may be lost or fail, and a request may stop anywhere:
  it is then simply never advanced again.
 */
module Protocol {
  import opened Wrappers
  import opened DesireId
  import opened Desires
  import opened Placement

  datatype Kind = Create | Update | Delete | Get

  datatype Request = Request(kind: Kind, namespace: string, name: string, clusterID: string, body: string) {
    function Id(): DocumentID { ClusterDocumentID(namespace, name) }

    function At(mc: MC): Loc { Loc(mc, Id()) }

    function MapId(): string { ClusterMapDocID(namespace, name) }

    /** The custom resource of the request body, with the path's namespace and name. */
    function Object(): Manifest { Cluster(namespace, name, clusterID, body) }

    function Desire(mc: MC): ApplyDesire {
      ApplyDesire(mc, clusterID, ClusterTarget(namespace, name), Some(Object()))
    }
  }

  function ClusterTarget(namespace: string, name: string): ResourceReference {
    ResourceReference(MHC_GROUP, MHC_VERSION, MHC_RESOURCE, namespace, name)
  }

  function NamespaceTarget(name: string): ResourceReference {
    ResourceReference("", "v1", "namespaces", "", name)
  }

  function NamespaceDesire(mc: MC, namespace: string): ApplyDesire {
    ApplyDesire(mc, "", NamespaceTarget(namespace), Some(Namespace(namespace)))
  }

  /** The placement database and the specs databases of all management clusters. */
  datatype World = World(
    quotas: Quotas,
    mappings: map<string, MC>,
    applyDesires: Table<ApplyDesire>,
    readDesires: Table<TargetDesire>,
    deleteDesires: Table<TargetDesire>)

  datatype Response =
    | Done
    | Content(manifest: Manifest)
    | Conflict
    | NoPlacement
    | Refused(error: Error)

  /** The next store call of a request. */
  datatype Pc =
    | CheckMapping
    | Allocating
    | WritingNamespace(mc: MC)
    | WritingApply(mc: MC)
    | WritingRead(mc: MC)
    | WritingMapping(mc: MC)
    | UpdateLookup
    | UpdateRead(mc: MC)
    | Replacing(mc: MC, existing: Document<ApplyDesire>)
    | DeleteLookup
    | DeleteRead(mc: MC)
    | RemovingApply(mc: MC, clusterID: string)
    | RemovingRead(mc: MC, clusterID: string)
    | WritingDelete(mc: MC, clusterID: string)
    | Releasing(mc: MC)
    | Unmapping(mc: MC)
    | GetLookup
    | GetStatusRead(mc: MC)
    | GetStatusApply(mc: MC, live: Option<Manifest>)
    | GetSpec(mc: MC)
    | Finished(response: Response)

  function Start(k: Kind): Pc {
    match k
    case Create => CheckMapping
    case Update => UpdateLookup
    case Delete => DeleteLookup
    case Get => GetLookup
  }

  /** What one store call changes. */
  datatype Effect =
    | Nothing
    | Allocate(mc: MC)
    | Release(mc: MC)
    | PutMapping(id: string, mc: MC)
    | DropMapping(id: string)
    | InsertApply(loc: Loc, apply: ApplyDesire)
    | ReplaceApply(loc: Loc, basis: Document<ApplyDesire>, apply: ApplyDesire)
    | RemoveApply(loc: Loc)
    | InsertRead(loc: Loc, target: TargetDesire)
    | RemoveRead(loc: Loc)
    | InsertDelete(loc: Loc, target: TargetDesire)

  /** The surroundings of one call: how it ends, in which order the store lists the
      management clusters, and what the agent has reported in the status database. */
  datatype Input = Input(outcome: Outcome, listing: seq<MC>, live: Option<Manifest>)

  /** The call at `pc`: what it changes, and where the handler goes on its answer. */
  function Answer(w: World, q: Request, pc: Pc, i: Input): (Effect, Pc)
    requires !pc.Finished? && forall mc :: mc in i.listing ==> mc in w.quotas
  {
    match pc
    case CheckMapping =>
      (Nothing, if q.MapId() in w.mappings then Finished(Conflict) else Allocating)
    case Allocating =>
      (match Choose(w.quotas, i.listing)
       case None => (Nothing, Finished(NoPlacement))
       case Some(mc) => (Allocate(mc), WritingNamespace(mc)))
    case WritingNamespace(mc) =>
      var loc := Loc(mc, NamespaceDocumentID(q.namespace));
      (if loc in w.applyDesires.docs then Nothing else InsertApply(loc, NamespaceDesire(mc, q.namespace)),
       WritingApply(mc))
    case WritingApply(mc) =>
      if q.At(mc) in w.applyDesires.docs then (Nothing, Finished(Refused(AlreadyExists)))
      else (InsertApply(q.At(mc), q.Desire(mc)), WritingRead(mc))
    case WritingRead(mc) =>
      if q.At(mc) in w.readDesires.docs then (Nothing, Finished(Refused(AlreadyExists)))
      else (InsertRead(q.At(mc), TargetDesire(mc, q.clusterID, ClusterTarget(q.namespace, q.name))), WritingMapping(mc))
    case WritingMapping(mc) =>
      (PutMapping(q.MapId(), mc), Finished(Done))
    case UpdateLookup =>
      (Nothing, if q.MapId() in w.mappings then UpdateRead(w.mappings[q.MapId()]) else Finished(Refused(NotFound)))
    case UpdateRead(mc) =>
      (Nothing, if q.At(mc) in w.applyDesires.docs then Replacing(mc, w.applyDesires.docs[q.At(mc)])
       else Finished(Refused(NotFound)))
    case Replacing(mc, existing) =>
      if q.At(mc) !in w.applyDesires.docs then (Nothing, Finished(Refused(NotFound)))
      else if w.applyDesires.docs[q.At(mc)].updateTime != existing.updateTime then
        (Nothing, Finished(Refused(PreconditionFailed)))
      else (ReplaceApply(q.At(mc), existing, existing.value.(content := Some(q.Object()))), Finished(Done))
    case DeleteLookup =>
      (Nothing, if q.MapId() in w.mappings then DeleteRead(w.mappings[q.MapId()]) else Finished(Refused(NotFound)))
    case DeleteRead(mc) =>
      (Nothing, if q.At(mc) in w.applyDesires.docs then RemovingApply(mc, w.applyDesires.docs[q.At(mc)].value.clusterID)
                else Finished(Refused(NotFound)))
    case RemovingApply(mc, cid) =>
      (RemoveApply(q.At(mc)), RemovingRead(mc, cid))
    case RemovingRead(mc, cid) =>
      (RemoveRead(q.At(mc)), WritingDelete(mc, cid))
    case WritingDelete(mc, cid) =>
      if q.At(mc) in w.deleteDesires.docs then (Nothing, Finished(Refused(AlreadyExists)))
      else (InsertDelete(q.At(mc), TargetDesire(mc, cid, ClusterTarget(q.namespace, q.name))), Releasing(mc))
    case Releasing(mc) =>
      if mc !in w.quotas then (Nothing, Finished(Refused(NotFound)))
      else (if w.quotas[mc].load <= 0 then Nothing else Release(mc), Unmapping(mc))
    case Unmapping(mc) =>
      (DropMapping(q.MapId()), Finished(Done))
    case GetLookup =>
      (Nothing, if q.MapId() in w.mappings then GetStatusRead(w.mappings[q.MapId()]) else Finished(Refused(NotFound)))
    case GetStatusRead(mc) =>
      (Nothing, GetStatusApply(mc, i.live))
    case GetStatusApply(mc, live) =>
      (Nothing, match live case Some(m) => Finished(Content(m)) case None => GetSpec(mc))
    case GetSpec(mc) =>
      (Nothing, if q.At(mc) !in w.applyDesires.docs then Finished(Refused(NotFound))
                else match w.applyDesires.docs[q.At(mc)].value.content
                  case Some(m) => Finished(Content(m))
                  case None => Finished(Refused(NotFound)))
  }

  /** A failed call has no effect; a lost one has its effect; both end the request. */
  function Call(w: World, q: Request, pc: Pc, i: Input): (Effect, Pc)
    requires !pc.Finished? && forall mc :: mc in i.listing ==> mc in w.quotas
  {
    var (e, next) := Answer(w, q, pc, i);
    match i.outcome
    case Answered => (e, next)
    case Lost => (e, Finished(Refused(Unavailable)))
    case Failed => (Nothing, Finished(Refused(Unavailable)))
  }

  predicate Applicable(w: World, e: Effect) {
    match e
    case Allocate(mc) => mc in w.quotas
    case Release(mc) => mc in w.quotas
    case ReplaceApply(loc, _, _) => loc in w.applyDesires.docs
    case _ => true
  }

  function Apply(w: World, e: Effect): World
    requires Applicable(w, e)
  {
    match e
    case Nothing => w
    case Allocate(mc) => w.(quotas := Adjusted(w.quotas, mc, 1))
    case Release(mc) => w.(quotas := Adjusted(w.quotas, mc, -1))
    case PutMapping(id, mc) => w.(mappings := w.mappings[id := mc])
    case DropMapping(id) => w.(mappings := w.mappings - {id})
    case InsertApply(loc, v) => w.(applyDesires := w.applyDesires.Inserted(loc, v))
    case ReplaceApply(loc, _, v) => w.(applyDesires := w.applyDesires.Replaced(loc, v))
    case RemoveApply(loc) => w.(applyDesires := w.applyDesires.Removed(loc))
    case InsertRead(loc, v) => w.(readDesires := w.readDesires.Inserted(loc, v))
    case RemoveRead(loc) => w.(readDesires := w.readDesires.Removed(loc))
    case InsertDelete(loc, v) => w.(deleteDesires := w.deleteDesires.Inserted(loc, v))
  }

  // Runs of the whole system.

  datatype Proc = Proc(request: Request, pc: Pc)

  datatype System = System(world: World, procs: map<nat, Proc>)

  datatype Action = Arrive(r: nat, request: Request) | Advance(r: nat, input: Input)

  ghost predicate Enabled(s: System, a: Action) {
    match a
    case Arrive(r, _) => r !in s.procs
    case Advance(r, i) => r in s.procs && !s.procs[r].pc.Finished? && Lists(i.listing, s.world.quotas.Keys)
  }

  /** The effect of an action and the program counter it leaves its request at. */
  ghost function Move(s: System, a: Action): (Effect, Pc)
    requires Enabled(s, a)
  {
    match a
    case Arrive(_, q) => (Nothing, Start(q.kind))
    case Advance(r, i) => Call(s.world, s.procs[r].request, s.procs[r].pc, i)
  }

  ghost function RequestOf(s: System, a: Action): Request
    requires Enabled(s, a)
  {
    match a case Arrive(_, q) => q case Advance(r, _) => s.procs[r].request
  }

  ghost function After(s: System, a: Action): System
    requires Enabled(s, a)
  {
    var (e, pc) := Move(s, a);
    System(Apply(s.world, e), s.procs[a.r := Proc(RequestOf(s, a), pc)])
  }

  ghost predicate ValidRun(s: System, run: seq<Action>)
    decreases |run|
  {
    run == [] || (Enabled(s, run[0]) && ValidRun(After(s, run[0]), run[1..]))
  }

  ghost function Run(s: System, run: seq<Action>): System
    requires ValidRun(s, run)
    decreases |run|
  {
    if run == [] then s else Run(After(s, run[0]), run[1..])
  }
}
