/**
  The API server refines a plain map from (namespace, name) to the submitted object
  (internal/apiserver/handlers.go): if requests for one name do not overlap and no store
  call fails, then clients see a map, however requests for different names interleave.
 */
module PlainMap {
  import opened Wrappers
  import opened DesireId
  import opened Desires
  import opened Placement
  import opened Protocol

  datatype Key = Key(namespace: string, name: string) {
    function At(mc: MC): Loc { Loc(mc, ClusterDocumentID(namespace, name)) }

    function MapId(): string { ClusterMapDocID(namespace, name) }

    predicate Valid() { ValidNamespace(namespace) }
  }

  function KeyOf(q: Request): Key { Key(q.namespace, q.name) }

  type Objects = map<Key, Manifest>

  // The specification.

  /** No management cluster has room. */
  ghost predicate Full(w: World) { forall mc :: mc in w.quotas ==> !w.quotas[mc].HasRoom() }

  /** The responses a map may give. Only a Create may also be refused for want of room, and
      then there is none anywhere at that moment. */
  ghost predicate Expected(w: World, m: Objects, q: Request, response: Response) {
    var present := KeyOf(q) in m;
    match q.kind
    case Create =>
      if present then response == Conflict else response == Done || (response == NoPlacement && Full(w))
    case Update => response == if present then Done else Refused(NotFound)
    case Delete => response == if present then Done else Refused(NotFound)
    case Get => response == if present then Content(m[KeyOf(q)]) else Refused(NotFound)
  }

  function Updated(m: Objects, q: Request, response: Response): Objects {
    if response != Done then m
    else match q.kind
      case Create => m[KeyOf(q) := Cluster(q.namespace, q.name, q.clusterID, q.body)]
      case Update => m[KeyOf(q) := Cluster(q.namespace, q.name, q.clusterID, q.body)]
      case Delete => m - {KeyOf(q)}
      case Get => m
  }

  // How a name is stored.

  /** Where a name is mapped, applied (with which object) and watched. */
  datatype Shape = Shape(mapped: Option<MC>, applied: Option<MC>, content: Option<Manifest>, watched: Option<MC>)

  const Absent := Shape(None, None, None, None)

  ghost predicate HasShape(w: World, key: Key, sh: Shape) {
    && Lookup(w.mappings, key.MapId()) == sh.mapped
    && (forall mc :: key.At(mc) in w.applyDesires.docs <==> sh.applied == Some(mc))
    && (forall mc :: key.At(mc) in w.applyDesires.docs ==> w.applyDesires.docs[key.At(mc)].value.content == sh.content)
    && (forall mc :: key.At(mc) in w.readDesires.docs <==> sh.watched == Some(mc))
  }

  function Stored(mc: MC, content: Manifest): Shape { Shape(Some(mc), Some(mc), Some(content), Some(mc)) }

  /** `key` is stored on `mc`, and only there, with the object the map has for it. */
  ghost predicate StoredOn(w: World, m: Objects, key: Key, mc: MC) {
    key in m && mc in w.quotas && HasShape(w, key, Stored(mc, m[key]))
  }

  /** An idle name is stored on one management cluster, or nowhere at all. */
  ghost predicate Settled(w: World, m: Objects, key: Key) {
    if key in m then key.MapId() in w.mappings && StoredOn(w, m, key, w.mappings[key.MapId()])
    else HasShape(w, key, Absent)
  }

  /** How a name is stored while a request for it is at `pc`. */
  ghost predicate InFlight(w: World, m: Objects, q: Request, pc: Pc) {
    var key := KeyOf(q);
    var created := q.Object();
    match pc
    case CheckMapping => q.kind.Create? && Settled(w, m, key)
    case Allocating => q.kind.Create? && key !in m && Settled(w, m, key)
    case WritingNamespace(mc) => q.kind.Create? && key !in m && Settled(w, m, key) && mc in w.quotas
    case WritingApply(mc) => q.kind.Create? && key !in m && Settled(w, m, key) && mc in w.quotas
    case WritingRead(mc) =>
      q.kind.Create? && key !in m && mc in w.quotas && HasShape(w, key, Shape(None, Some(mc), Some(created), None))
    case WritingMapping(mc) =>
      q.kind.Create? && key !in m && mc in w.quotas && HasShape(w, key, Shape(None, Some(mc), Some(created), Some(mc)))
    case UpdateLookup => q.kind.Update? && Settled(w, m, key)
    case UpdateRead(mc) => q.kind.Update? && StoredOn(w, m, key, mc)
    case Replacing(mc, existing) =>
      q.kind.Update? && StoredOn(w, m, key, mc) && w.applyDesires.docs[key.At(mc)] == existing
    case DeleteLookup =>
      q.kind.Delete? && Settled(w, m, key) && NeverDeletedHere(w, key)
    case DeleteRead(mc) =>
      q.kind.Delete? && StoredOn(w, m, key, mc) && key.At(mc) !in w.deleteDesires.docs
    case RemovingApply(mc, _) =>
      q.kind.Delete? && StoredOn(w, m, key, mc) && key.At(mc) !in w.deleteDesires.docs
    case RemovingRead(mc, _) =>
      && q.kind.Delete? && key in m && mc in w.quotas && key.At(mc) !in w.deleteDesires.docs
      && HasShape(w, key, Shape(Some(mc), None, None, Some(mc)))
    case WritingDelete(mc, _) =>
      && q.kind.Delete? && key in m && mc in w.quotas && key.At(mc) !in w.deleteDesires.docs
      && HasShape(w, key, Shape(Some(mc), None, None, None))
    case Releasing(mc) =>
      && q.kind.Delete? && key in m && mc in w.quotas
      && HasShape(w, key, Shape(Some(mc), None, None, None))
    case Unmapping(mc) =>
      && q.kind.Delete? && key in m && mc in w.quotas
      && HasShape(w, key, Shape(Some(mc), None, None, None))
    case GetLookup => q.kind.Get? && Settled(w, m, key)
    case GetStatusRead(mc) => q.kind.Get? && StoredOn(w, m, key, mc)
    case GetStatusApply(mc, live) => q.kind.Get? && StoredOn(w, m, key, mc) && live == None
    case GetSpec(mc) => q.kind.Get? && StoredOn(w, m, key, mc)
    case Finished(_) => Settled(w, m, key)
  }

  /** The management cluster `key` is mapped to has never seen a Delete of it. */
  ghost predicate NeverDeletedHere(w: World, key: Key) {
    key.MapId() in w.mappings ==> key.At(w.mappings[key.MapId()]) !in w.deleteDesires.docs
  }

  // One call, seen from its own name.

  function NextObjects(m: Objects, q: Request, next: Pc): Objects {
    if next.Finished? then Updated(m, q, next.response) else m
  }

  ghost predicate Refines(w: World, m: Objects, q: Request, e: Effect, next: Pc) {
    && Applicable(w, e)
    && InFlight(Apply(w, e), NextObjects(m, q, next), q, next)
    && (next.Finished? ==> Expected(w, m, q, next.response))
  }

  ghost predicate Clean(w: World, pc: Pc, i: Input) {
    !pc.Finished? && Lists(i.listing, w.quotas.Keys) && i.outcome == Answered && i.live == None
  }

  lemma OwnCreate(w: World, m: Objects, q: Request, pc: Pc, i: Input)
    requires InFlight(w, m, q, pc) && Clean(w, pc, i) && q.kind.Create?
    ensures Refines(w, m, q, Call(w, q, pc, i).0, Call(w, q, pc, i).1)
  {
    assert forall mc :: KeyOf(q).At(mc) == q.At(mc);
    if pc.WritingNamespace? {
      NamespaceAndClusterIdsDiffer(q.namespace, q.namespace, q.name);
    } else if pc.Allocating? {
      ChooseIsLeastLoaded(w.quotas, i.listing);
    }
  }

  lemma OwnUpdate(w: World, m: Objects, q: Request, pc: Pc, i: Input)
    requires InFlight(w, m, q, pc) && Clean(w, pc, i) && q.kind.Update?
    ensures Refines(w, m, q, Call(w, q, pc, i).0, Call(w, q, pc, i).1)
  {
    assert forall mc :: KeyOf(q).At(mc) == q.At(mc);
  }

  lemma OwnDelete(w: World, m: Objects, q: Request, pc: Pc, i: Input)
    requires InFlight(w, m, q, pc) && Clean(w, pc, i) && q.kind.Delete?
    ensures Refines(w, m, q, Call(w, q, pc, i).0, Call(w, q, pc, i).1)
  {
    assert forall mc :: KeyOf(q).At(mc) == q.At(mc);
  }

  lemma OwnGet(w: World, m: Objects, q: Request, pc: Pc, i: Input)
    requires InFlight(w, m, q, pc) && Clean(w, pc, i) && q.kind.Get?
    ensures Refines(w, m, q, Call(w, q, pc, i).0, Call(w, q, pc, i).1)
  {
    assert forall mc :: KeyOf(q).At(mc) == q.At(mc);
  }

  // One call, seen from every other name.

  /** `w'` stores `key` exactly as `w` does. */
  ghost predicate SameAt(w: World, w': World, key: Key) {
    && Lookup(w'.mappings, key.MapId()) == Lookup(w.mappings, key.MapId())
    && w'.quotas.Keys == w.quotas.Keys
    && forall mc ::
         && Lookup(w'.applyDesires.docs, key.At(mc)) == Lookup(w.applyDesires.docs, key.At(mc))
         && (key.At(mc) in w'.readDesires.docs <==> key.At(mc) in w.readDesires.docs)
         && (key.At(mc) in w'.deleteDesires.docs <==> key.At(mc) in w.deleteDesires.docs)
  }

  lemma IdsApart(k1: Key, k2: Key)
    requires k1.Valid() && k2.Valid() && k1 != k2
    ensures k1.MapId() != k2.MapId()
    ensures ClusterDocumentID(k1.namespace, k1.name) != ClusterDocumentID(k2.namespace, k2.name)
    ensures NamespaceDocumentID(k1.namespace) != ClusterDocumentID(k2.namespace, k2.name)
  {
    ClusterIdInjective(k1.namespace, k1.name, k2.namespace, k2.name);
    ClusterMapIdInjective(k1.namespace, k1.name, k2.namespace, k2.name);
    NamespaceAndClusterIdsDiffer(k1.namespace, k2.namespace, k2.name);
  }

  /** An effect stays within the documents of its request's name and namespace. */
  predicate Within(q: Request, e: Effect) {
    match e
    case PutMapping(id, _) => id == q.MapId()
    case DropMapping(id) => id == q.MapId()
    case InsertApply(loc, _) => loc.id == q.Id() || loc.id == NamespaceDocumentID(q.namespace)
    case ReplaceApply(loc, _, _) => loc.id == q.Id()
    case RemoveApply(loc) => loc.id == q.Id()
    case InsertRead(loc, _) => loc.id == q.Id()
    case RemoveRead(loc) => loc.id == q.Id()
    case InsertDelete(loc, _) => loc.id == q.Id()
    case _ => true
  }

  lemma CallStaysWithin(w: World, q: Request, pc: Pc, i: Input)
    requires !pc.Finished? && Lists(i.listing, w.quotas.Keys)
    ensures Within(q, Call(w, q, pc, i).0)
  {
  }

  lemma OtherNamesUntouched(w: World, q: Request, e: Effect, key: Key)
    requires Applicable(w, e) && Within(q, e)
    requires KeyOf(q).Valid() && key.Valid() && key != KeyOf(q)
    ensures SameAt(w, Apply(w, e), key)
  {
    IdsApart(KeyOf(q), key);
  }

  lemma ShapeFrame(w: World, w': World, key: Key, sh: Shape)
    requires SameAt(w, w', key) && HasShape(w, key, sh)
    ensures HasShape(w', key, sh)
  {
    forall mc
      ensures key.At(mc) in w'.applyDesires.docs <==> sh.applied == Some(mc)
      ensures key.At(mc) in w'.applyDesires.docs ==> w'.applyDesires.docs[key.At(mc)].value.content == sh.content
      ensures key.At(mc) in w'.readDesires.docs <==> sh.watched == Some(mc)
    {
      assert Lookup(w'.applyDesires.docs, key.At(mc)) == Lookup(w.applyDesires.docs, key.At(mc));
    }
  }

  lemma SettledFrame(w: World, w': World, m: Objects, m': Objects, key: Key)
    requires SameAt(w, w', key) && Lookup(m, key) == Lookup(m', key) && Settled(w, m, key)
    ensures Settled(w', m', key)
  {
    ShapeFrame(w, w', key, if key in m then Stored(w.mappings[key.MapId()], m[key]) else Absent);
  }

  lemma InFlightFrame(w: World, w': World, m: Objects, m': Objects, q: Request, pc: Pc)
    requires SameAt(w, w', KeyOf(q)) && Lookup(m, KeyOf(q)) == Lookup(m', KeyOf(q)) && InFlight(w, m, q, pc)
    ensures InFlight(w', m', q, pc)
  {
    var key := KeyOf(q);
    if Settled(w, m, key) {
      SettledFrame(w, w', m, m', key);
    }
    forall sh | HasShape(w, key, sh)
      ensures HasShape(w', key, sh)
    {
      ShapeFrame(w, w', key, sh);
    }
    match pc
    case Replacing(mc, _) =>
      assert Lookup(w'.applyDesires.docs, key.At(mc)) == Lookup(w.applyDesires.docs, key.At(mc));
    case DeleteLookup =>
      assert NeverDeletedHere(w', key);
    case _ =>
  }

  // Whole runs.

  predicate Active(p: Proc) { !p.pc.Finished? }

  ghost predicate Idle(s: System, key: Key) {
    forall r :: r in s.procs && Active(s.procs[r]) ==> KeyOf(s.procs[r].request) != key
  }

  ghost predicate Inv(s: System, m: Objects) {
    && (forall r :: r in s.procs && Active(s.procs[r]) ==>
          KeyOf(s.procs[r].request).Valid() && InFlight(s.world, m, s.procs[r].request, s.procs[r].pc))
    && (forall r1, r2 :: r1 in s.procs && r2 in s.procs && r1 != r2 && Active(s.procs[r1]) && Active(s.procs[r2]) ==>
          KeyOf(s.procs[r1].request) != KeyOf(s.procs[r2].request))
    && (forall key: Key :: key.Valid() && Idle(s, key) ==> Settled(s.world, m, key))
  }

  /** Requests for one name do not overlap, no call fails, the agent has not reported, and a
      name is not deleted a second time on a management cluster it was deleted on before. */
  ghost predicate Polite(s: System, a: Action)
    requires Enabled(s, a)
  {
    match a
    case Arrive(_, q) =>
      && KeyOf(q).Valid() && Idle(s, KeyOf(q))
      && (q.kind.Delete? ==> NeverDeletedHere(s.world, KeyOf(q)))
    case Advance(_, i) => i.outcome == Answered && i.live == None
  }

  ghost function NextMap(s: System, m: Objects, a: Action): Objects
    requires Enabled(s, a)
  {
    NextObjects(m, RequestOf(s, a), Move(s, a).1)
  }

  lemma OwnStep(s: System, m: Objects, r: nat, i: Input)
    requires Inv(s, m) && Enabled(s, Advance(r, i)) && Polite(s, Advance(r, i))
    ensures var (e, next) := Call(s.world, s.procs[r].request, s.procs[r].pc, i);
            Refines(s.world, m, s.procs[r].request, e, next)
  {
    var q, pc := s.procs[r].request, s.procs[r].pc;
    match q.kind
    case Create => OwnCreate(s.world, m, q, pc, i);
    case Update => OwnUpdate(s.world, m, q, pc, i);
    case Delete => OwnDelete(s.world, m, q, pc, i);
    case Get => OwnGet(s.world, m, q, pc, i);
  }

  lemma ArriveKeepsInv(s: System, m: Objects, r: nat, q: Request)
    requires Inv(s, m) && Enabled(s, Arrive(r, q)) && Polite(s, Arrive(r, q))
    ensures Inv(After(s, Arrive(r, q)), m)
  {
    var s' := After(s, Arrive(r, q));
    assert InFlight(s.world, m, q, Start(q.kind));
    forall key: Key | key.Valid() && Idle(s', key)
      ensures Settled(s.world, m, key)
    {
      assert Active(s'.procs[r]);
      forall r2 | r2 in s.procs && Active(s.procs[r2])
        ensures KeyOf(s.procs[r2].request) != key
      {
        assert s'.procs[r2] == s.procs[r2];
      }
    }
  }

  lemma OthersKeepFlying(s: System, m: Objects, r: nat, e: Effect, m': Objects, r2: nat)
    requires Inv(s, m) && r in s.procs && r2 in s.procs && r2 != r && Active(s.procs[r]) && Active(s.procs[r2])
    requires Applicable(s.world, e) && Within(s.procs[r].request, e)
    requires forall key :: key != KeyOf(s.procs[r].request) ==> Lookup(m', key) == Lookup(m, key)
    ensures InFlight(Apply(s.world, e), m', s.procs[r2].request, s.procs[r2].pc)
  {
    OtherNamesUntouched(s.world, s.procs[r].request, e, KeyOf(s.procs[r2].request));
    InFlightFrame(s.world, Apply(s.world, e), m, m', s.procs[r2].request, s.procs[r2].pc);
  }

  lemma IdleStaySettled(s: System, m: Objects, r: nat, e: Effect, m': Objects, next: Pc, key: Key)
    requires Inv(s, m) && r in s.procs && Active(s.procs[r])
    requires Refines(s.world, m, s.procs[r].request, e, next) && Within(s.procs[r].request, e)
    requires m' == NextObjects(m, s.procs[r].request, next)
    requires key.Valid() && Idle(System(Apply(s.world, e), s.procs[r := Proc(s.procs[r].request, next)]), key)
    ensures Settled(Apply(s.world, e), m', key)
  {
    var q := s.procs[r].request;
    var procs' := s.procs[r := Proc(q, next)];
    if key == KeyOf(q) {
      assert !Active(procs'[r]);
    } else {
      forall r2 | r2 in s.procs && Active(s.procs[r2])
        ensures KeyOf(s.procs[r2].request) != key
      {
        assert r2 == r || procs'[r2] == s.procs[r2];
      }
      assert Idle(s, key);
      OtherNamesUntouched(s.world, q, e, key);
      SettledFrame(s.world, Apply(s.world, e), m, m', key);
    }
  }

  lemma AdvanceKeepsInv(s: System, m: Objects, r: nat, i: Input)
    requires Inv(s, m) && Enabled(s, Advance(r, i)) && Polite(s, Advance(r, i))
    ensures Inv(After(s, Advance(r, i)), NextMap(s, m, Advance(r, i)))
  {
    var s', m' := After(s, Advance(r, i)), NextMap(s, m, Advance(r, i));
    var (e, next) := Call(s.world, s.procs[r].request, s.procs[r].pc, i);
    OwnStep(s, m, r, i);
    CallStaysWithin(s.world, s.procs[r].request, s.procs[r].pc, i);
    forall r2 | r2 in s'.procs && Active(s'.procs[r2])
      ensures KeyOf(s'.procs[r2].request).Valid()
      ensures InFlight(s'.world, m', s'.procs[r2].request, s'.procs[r2].pc)
    {
      if r2 != r {
        OthersKeepFlying(s, m, r, e, m', r2);
      }
    }
    forall key: Key | key.Valid() && Idle(s', key)
      ensures Settled(s'.world, m', key)
    {
      IdleStaySettled(s, m, r, e, m', next, key);
    }
  }

  ghost predicate PoliteRun(s: System, run: seq<Action>)
    requires ValidRun(s, run)
    decreases |run|
  {
    run == [] || (Polite(s, run[0]) && PoliteRun(After(s, run[0]), run[1..]))
  }

  /** Every response of the run is one the map gives at the moment of the response. */
  ghost predicate Agrees(s: System, m: Objects, run: seq<Action>)
    requires ValidRun(s, run)
    decreases |run|
  {
    run == [] ||
    (&& (Move(s, run[0]).1.Finished? ==> Expected(s.world, m, RequestOf(s, run[0]), Move(s, run[0]).1.response))
     && Agrees(After(s, run[0]), NextMap(s, m, run[0]), run[1..]))
  }

  /** The map after a run: what the responses so far add up to. */
  ghost function MapAfter(s: System, m: Objects, run: seq<Action>): Objects
    requires ValidRun(s, run)
    decreases |run|
  {
    if run == [] then m else MapAfter(After(s, run[0]), NextMap(s, m, run[0]), run[1..])
  }

  /** Refinement: every response agrees with the map, and in every state each idle name that
      the map has is mapped to one management cluster which alone holds its ApplyDesire --
      with the map's object -- and its ReadDesire, while a name the map lacks has nothing. */
  lemma {:induction false} RefinesPlainMap(s: System, m: Objects, run: seq<Action>)
    requires Inv(s, m) && ValidRun(s, run) && PoliteRun(s, run)
    ensures Agrees(s, m, run)
    ensures Inv(Run(s, run), MapAfter(s, m, run))
    decreases |run|
  {
    if run != [] {
      match run[0] {
        case Arrive(r, q) =>
          ArriveKeepsInv(s, m, r, q);
        case Advance(r, i) =>
          OwnStep(s, m, r, i);
          AdvanceKeepsInv(s, m, r, i);
      }
      RefinesPlainMap(After(s, run[0]), NextMap(s, m, run[0]), run[1..]);
    }
  }

  /** The empty store is the empty map. */
  lemma EmptyStore(w: World)
    requires w.mappings == map[] && w.applyDesires.docs == map[] && w.readDesires.docs == map[]
    ensures Inv(System(w, map[]), map[])
  {
  }

  // ApplyDesires and DeleteDesires.

  /** A name is placed on a management cluster at most once: never where it was deleted. */
  ghost predicate FreshPlacement(s: System, a: Action)
    requires Enabled(s, a)
  {
    forall mc :: Move(s, a).0 == Effect.Allocate(mc) ==> RequestOf(s, a).At(mc) !in s.world.deleteDesires.docs
  }

  ghost predicate FreshRun(s: System, run: seq<Action>)
    requires ValidRun(s, run)
    decreases |run|
  {
    run == [] || (FreshPlacement(s, run[0]) && FreshRun(After(s, run[0]), run[1..]))
  }

  /** No cluster has an ApplyDesire and a DeleteDesire on one management cluster. */
  ghost predicate Apart(w: World) {
    forall key: Key, mc :: key.Valid() && key.At(mc) in w.applyDesires.docs ==> key.At(mc) !in w.deleteDesires.docs
  }

  ghost predicate PlacedFresh(w: World, p: Proc) {
    match p.pc
    case WritingNamespace(mc) => p.request.At(mc) !in w.deleteDesires.docs
    case WritingApply(mc) => p.request.At(mc) !in w.deleteDesires.docs
    case _ => true
  }

  ghost predicate ApartInv(s: System) {
    Apart(s.world) && forall r :: r in s.procs && Active(s.procs[r]) ==> PlacedFresh(s.world, s.procs[r])
  }

  lemma OwnCallKeepsApart(w: World, m: Objects, q: Request, pc: Pc, i: Input)
    requires InFlight(w, m, q, pc) && Clean(w, pc, i) && KeyOf(q).Valid()
    requires Apart(w) && PlacedFresh(w, Proc(q, pc))
    requires forall mc :: Call(w, q, pc, i).0 == Effect.Allocate(mc) ==> q.At(mc) !in w.deleteDesires.docs
    requires Applicable(w, Call(w, q, pc, i).0)
    ensures forall mc :: var w' := Apply(w, Call(w, q, pc, i).0);
              q.At(mc) in w'.applyDesires.docs ==> q.At(mc) !in w'.deleteDesires.docs
    ensures PlacedFresh(Apply(w, Call(w, q, pc, i).0), Proc(q, Call(w, q, pc, i).1))
  {
    assert forall mc :: KeyOf(q).At(mc) == q.At(mc);
    NamespaceAndClusterIdsDiffer(q.namespace, q.namespace, q.name);
  }

  lemma EffectKeepsApart(w: World, q: Request, e: Effect)
    requires Apart(w) && Applicable(w, e) && Within(q, e) && KeyOf(q).Valid()
    requires forall mc :: q.At(mc) in Apply(w, e).applyDesires.docs ==> q.At(mc) !in Apply(w, e).deleteDesires.docs
    ensures Apart(Apply(w, e))
  {
    var w' := Apply(w, e);
    forall key: Key, mc | key.Valid() && key.At(mc) in w'.applyDesires.docs
      ensures key.At(mc) !in w'.deleteDesires.docs
    {
      if key == KeyOf(q) {
        assert key.At(mc) == q.At(mc);
      } else {
        OtherNamesUntouched(w, q, e, key);
        assert Lookup(w'.applyDesires.docs, key.At(mc)) == Lookup(w.applyDesires.docs, key.At(mc));
      }
    }
  }

  lemma OthersStayFresh(w: World, q: Request, e: Effect, p: Proc)
    requires Applicable(w, e) && Within(q, e) && KeyOf(q).Valid() && KeyOf(p.request).Valid()
    requires KeyOf(p.request) != KeyOf(q) && PlacedFresh(w, p)
    ensures PlacedFresh(Apply(w, e), p)
  {
    OtherNamesUntouched(w, q, e, KeyOf(p.request));
    assert forall mc :: KeyOf(p.request).At(mc) == p.request.At(mc);
  }

  lemma AdvanceKeepsApart(s: System, m: Objects, r: nat, i: Input)
    requires Inv(s, m) && ApartInv(s) && Enabled(s, Advance(r, i))
    requires Polite(s, Advance(r, i)) && FreshPlacement(s, Advance(r, i))
    ensures ApartInv(After(s, Advance(r, i)))
  {
    var q := s.procs[r].request;
    var e := Call(s.world, q, s.procs[r].pc, i).0;
    OwnCallKeepsApart(s.world, m, q, s.procs[r].pc, i);
    CallStaysWithin(s.world, q, s.procs[r].pc, i);
    EffectKeepsApart(s.world, q, e);
    forall r2 | r2 in s.procs && r2 != r && Active(s.procs[r2])
      ensures PlacedFresh(Apply(s.world, e), s.procs[r2])
    {
      OthersStayFresh(s.world, q, e, s.procs[r2]);
    }
  }

  /** While names are placed at most once per management cluster, no reachable state ever
      holds an ApplyDesire and a DeleteDesire for the same cluster side by side. */
  lemma {:induction false} ApplyAndDeleteStayApart(s: System, m: Objects, run: seq<Action>)
    requires Inv(s, m) && ApartInv(s) && ValidRun(s, run) && PoliteRun(s, run) && FreshRun(s, run)
    ensures Apart(Run(s, run).world)
    decreases |run|
  {
    if run != [] {
      match run[0] {
        case Arrive(r, q) =>
          ArriveKeepsInv(s, m, r, q);
        case Advance(r, i) =>
          AdvanceKeepsInv(s, m, r, i);
          AdvanceKeepsApart(s, m, r, i);
      }
      ApplyAndDeleteStayApart(After(s, run[0]), NextMap(s, m, run[0]), run[1..]);
    }
  }
}
