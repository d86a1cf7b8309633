/**
  Where stored desires come from (internal/apiserver/handlers.go): over every run, with any
  interleaving and any faults, each applied object is one that a client submitted for that
  document, and each cluster id is one that a Create brought.
 */
module Origins {
  import opened Wrappers
  import opened DesireId
  import opened Desires
  import opened Protocol
  import opened Effects

  predicate IsFor(q: Request, id: DocumentID) { id == Uuid(ClusterKey(q.namespace, q.name)) }

  /** Some Create of this document brought the cluster id. */
  ghost predicate Brought(requests: set<Request>, id: DocumentID, clusterID: string) {
    exists q :: q in requests && q.kind.Create? && IsFor(q, id) && q.clusterID == clusterID
  }

  /** Some Create or Update of this document submitted the object. */
  ghost predicate Submitted(requests: set<Request>, id: DocumentID, manifest: Manifest) {
    exists q :: q in requests && (q.kind.Create? || q.kind.Update?) && IsFor(q, id)
        && manifest == Cluster(q.namespace, q.name, q.clusterID, q.body)
  }

  ghost predicate NamespaceOnly(loc: Loc, d: ApplyDesire) {
    exists ns :: loc.id == Uuid(NamespaceKey(ns)) && d.content == Some(Namespace(ns)) && d.clusterID == ""
  }

  ghost predicate ApplySourced(requests: set<Request>, loc: Loc, d: ApplyDesire) {
    || NamespaceOnly(loc, d)
    || (d.content.Some? && Submitted(requests, loc.id, d.content.value) && Brought(requests, loc.id, d.clusterID))
  }

  ghost predicate AppliesSourced(requests: set<Request>, t: Table<ApplyDesire>) {
    forall loc :: loc in t.docs ==> ApplySourced(requests, loc, t.docs[loc].value)
  }

  ghost predicate TargetsSourced(requests: set<Request>, t: Table<TargetDesire>) {
    forall loc :: loc in t.docs ==> Brought(requests, loc.id, t.docs[loc].value.clusterID)
  }

  ghost predicate WorldSourced(requests: set<Request>, w: World) {
    && AppliesSourced(requests, w.applyDesires) && TargetsSourced(requests, w.readDesires)
    && TargetsSourced(requests, w.deleteDesires)
  }

  /** What a request holds in its hands is sourced too. */
  ghost predicate PcSourced(requests: set<Request>, q: Request, pc: Pc) {
    match pc
    case CheckMapping => q.kind.Create?
    case Allocating => q.kind.Create?
    case WritingNamespace(_) => q.kind.Create?
    case WritingApply(_) => q.kind.Create?
    case WritingRead(_) => q.kind.Create?
    case UpdateLookup => q.kind.Update?
    case UpdateRead(_) => q.kind.Update?
    case Replacing(_, existing) => q.kind.Update? && Brought(requests, q.Id(), existing.value.clusterID)
    case RemovingApply(_, clusterID) => Brought(requests, q.Id(), clusterID)
    case RemovingRead(_, clusterID) => Brought(requests, q.Id(), clusterID)
    case WritingDelete(_, clusterID) => Brought(requests, q.Id(), clusterID)
    case _ => true
  }

  ghost predicate EffectSourced(requests: set<Request>, e: Effect) {
    match e
    case InsertApply(loc, d) => ApplySourced(requests, loc, d)
    case ReplaceApply(loc, _, d) => ApplySourced(requests, loc, d)
    case InsertRead(loc, t) => Brought(requests, loc.id, t.clusterID)
    case InsertDelete(loc, t) => Brought(requests, loc.id, t.clusterID)
    case _ => true
  }

  ghost predicate SystemSourced(requests: set<Request>, s: System) {
    && WorldSourced(requests, s.world)
    && forall r :: r in s.procs ==>
         s.procs[r].request in requests && PcSourced(requests, s.procs[r].request, s.procs[r].pc)
  }

  lemma EffectKeepsSources(requests: set<Request>, w: World, e: Effect)
    requires WorldSourced(requests, w) && Applicable(w, e) && EffectSourced(requests, e)
    ensures WorldSourced(requests, Apply(w, e))
  {
  }

  lemma OwnDesireIsSourced(requests: set<Request>, q: Request, mc: MC)
    requires q in requests && q.kind.Create?
    ensures ApplySourced(requests, q.At(mc), q.Desire(mc)) && Brought(requests, q.Id(), q.clusterID)
  {
    KeysAreWrittenOut(mc, q.namespace, q.name);
    assert IsFor(q, q.Id());
  }

  lemma NamespaceDesireIsSourced(requests: set<Request>, mc: MC, namespace: string)
    ensures ApplySourced(requests, Loc(mc, NamespaceDocumentID(namespace)), NamespaceDesire(mc, namespace))
  {
    KeysAreWrittenOut(mc, namespace, "");
    assert NamespaceOnly(Loc(mc, NamespaceDocumentID(namespace)), NamespaceDesire(mc, namespace));
  }

  lemma ReplacementIsSourced(requests: set<Request>, q: Request, mc: MC, d: ApplyDesire)
    requires q in requests && q.kind.Update? && Brought(requests, q.Id(), d.clusterID)
    ensures ApplySourced(requests, q.At(mc), d.(content := Some(q.Object())))
  {
    KeysAreWrittenOut(mc, q.namespace, q.name);
    assert IsFor(q, q.Id());
  }

  /** A cluster's document never holds a namespace's desire. */
  lemma StoredIdIsBrought(requests: set<Request>, w: World, q: Request, mc: MC)
    requires AppliesSourced(requests, w.applyDesires) && q.At(mc) in w.applyDesires.docs
    ensures Brought(requests, q.Id(), w.applyDesires.docs[q.At(mc)].value.clusterID)
  {
    var d := w.applyDesires.docs[q.At(mc)].value;
    if NamespaceOnly(q.At(mc), d) {
      var ns :| q.Id() == Uuid(NamespaceKey(ns)) && d.content == Some(Namespace(ns)) && d.clusterID == "";
      KeysAreWrittenOut(mc, ns, q.name);
      NamespaceAndClusterIdsDiffer(ns, q.namespace, q.name);
    }
  }

  lemma AnswerIsSourced(requests: set<Request>, w: World, q: Request, pc: Pc, i: Input)
    requires q in requests && AppliesSourced(requests, w.applyDesires) && PcSourced(requests, q, pc)
    requires !pc.Finished? && forall mc :: mc in i.listing ==> mc in w.quotas
    ensures EffectSourced(requests, Answer(w, q, pc, i).0) && PcSourced(requests, q, Answer(w, q, pc, i).1)
  {
    match pc
    case WritingNamespace(mc) => NamespaceDesireIsSourced(requests, mc, q.namespace);
    case WritingApply(mc) => OwnDesireIsSourced(requests, q, mc);
    case WritingRead(mc) => OwnDesireIsSourced(requests, q, mc);
    case UpdateRead(mc) => if q.At(mc) in w.applyDesires.docs { StoredIdIsBrought(requests, w, q, mc); }
    case Replacing(mc, existing) => ReplacementIsSourced(requests, q, mc, existing.value);
    case DeleteRead(mc) => if q.At(mc) in w.applyDesires.docs { StoredIdIsBrought(requests, w, q, mc); }
    case _ =>
  }

  lemma StepKeepsSources(requests: set<Request>, s: System, a: Action)
    requires SystemSourced(requests, s) && Enabled(s, a) && (a.Arrive? ==> a.request in requests)
    ensures SystemSourced(requests, After(s, a))
  {
    if a.Advance? {
      AnswerIsSourced(requests, s.world, s.procs[a.r].request, s.procs[a.r].pc, a.input);
    }
    EffectKeepsSources(requests, s.world, Move(s, a).0);
  }

  lemma {:induction false} RunKeepsSources(requests: set<Request>, s: System, run: seq<Action>)
    requires SystemSourced(requests, s) && ValidRun(s, run)
    requires forall a :: a in run && a.Arrive? ==> a.request in requests
    ensures SystemSourced(requests, Run(s, run))
    decreases |run|
  {
    if run != [] {
      StepKeepsSources(requests, s, run[0]);
      RunKeepsSources(requests, After(s, run[0]), run[1..]);
    }
  }

  /** The requests that arrive in a run. */
  function Arrivals(run: seq<Action>): set<Request> {
    set a | a in run && a.Arrive? :: a.request
  }

  /** In every state reachable from empty databases: a stored object is the one some Create or
      Update of the run submitted for its document, or a namespace; and the cluster id in every
      ApplyDesire, ReadDesire and DeleteDesire of a cluster is one a Create of that document had. */
  lemma NothingIsInvented(w: World, run: seq<Action>, loc: Loc)
    requires w.applyDesires.docs == map[] && w.readDesires.docs == map[] && w.deleteDesires.docs == map[]
    requires ValidRun(System(w, map[]), run)
    ensures var w' := Run(System(w, map[]), run).world;
            && (loc in w'.applyDesires.docs ==> ApplySourced(Arrivals(run), loc, w'.applyDesires.docs[loc].value))
            && (loc in w'.readDesires.docs ==>
                  Brought(Arrivals(run), loc.id, w'.readDesires.docs[loc].value.clusterID))
            && (loc in w'.deleteDesires.docs ==>
                  Brought(Arrivals(run), loc.id, w'.deleteDesires.docs[loc].value.clusterID))
  {
    RunKeepsSources(Arrivals(run), System(w, map[]), run);
  }
}
