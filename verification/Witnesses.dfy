/**
  Runs from the empty store that end in the two places Limits describes: a name deleted twice on
  one management cluster, and a name on two management clusters (internal/apiserver/handlers.go).
 */
module Witnesses {
  import opened Wrappers
  import opened DesireId
  import opened Desires
  import opened Placement
  import opened Protocol
  import opened PlainMap
  import opened Solo
  import opened Limits

  function EmptyWorld(quotas: Quotas): World {
    World(quotas, map[], Table(map[], 0), Table(map[], 0), Table(map[], 0))
  }

  ghost predicate Reaches(s: System, end: System) {
    exists run :: ValidRun(s, run) && Run(s, run) == end
  }

  lemma ReachesItself(s: System)
    ensures Reaches(s, s)
  {
    assert ValidRun(s, []) && Run(s, []) == s;
  }

  /** Serving one more request alone. */
  lemma ReachesServed(s0: System, s: System, r: nat, q: Request, script: seq<Input>)
    requires Reaches(s0, s) && r !in s.procs
    requires Calls(Start(q.kind)) <= |script| && Scripted(script, s.world.quotas.Keys)
    ensures var (w, response) := RunAlone(s.world, q, Start(q.kind), script);
            Reaches(s0, System(w, s.procs[r := Proc(q, Finished(response))]))
  {
    var run :| ValidRun(s0, run) && Run(s0, run) == s;
    ServeIsARun(s, r, q, script);
    RunsCompose(s0, run, Serve(s.world, r, q, script));
  }

  lemma ReachesThrough(s0: System, s: System, end: System)
    requires Reaches(s0, s) && Reaches(s, end)
    ensures Reaches(s0, end)
  {
    var run1 :| ValidRun(s0, run1) && Run(s0, run1) == s;
    var run2 :| ValidRun(s, run2) && Run(s, run2) == end;
    RunsCompose(s0, run1, run2);
  }

  lemma ReachesNext(s0: System, s: System, a: Action, end: System)
    requires Reaches(s0, s) && Enabled(s, a) && After(s, a) == end
    ensures Reaches(s0, end)
  {
    RunCons(s, a, []);
    ReachesThrough(s0, s, end);
  }

  function AfterCreate(w: World, q: Request, mc: MC): World
    requires mc in w.quotas
  {
    AfterPublish(AfterApply(w, q, mc), q, mc)
  }

  lemma PlacedCreateStores(w: World, q: Request, mc: MC, script: seq<Input>)
    requires |script| >= 5 && Scripted(script, w.quotas.Keys) && NoFaults(script)
    requires Choose(w.quotas, script[0].listing) == Some(mc)
    requires q.At(mc) !in w.applyDesires.docs && q.At(mc) !in w.readDesires.docs
    ensures RunAlone(w, q, Allocating, script) == (AfterCreate(w, q, mc), Done)
  {
    CreateApplies(w, q, mc, script);
    ApplyLeaves(w, q, mc);
    Tail(script, 3, w.quotas.Keys);
    CreatePublishes(AfterApply(w, q, mc), q, mc, script[3..]);
  }

  lemma CreateStores(w: World, q: Request, mc: MC, script: seq<Input>)
    requires q.kind.Create? && HasShape(w, KeyOf(q), Absent)
    requires |script| >= 6 && Scripted(script, w.quotas.Keys) && NoFaults(script)
    requires Choose(w.quotas, script[1].listing) == Some(mc)
    ensures RunAlone(w, q, CheckMapping, script) == (AfterCreate(w, q, mc), Done)
  {
    assert KeyOf(q).At(mc) == q.At(mc) && KeyOf(q).MapId() == q.MapId();
    OneCall(w, q, CheckMapping, script, Nothing, Allocating);
    Tail(script, 1, w.quotas.Keys);
    PlacedCreateStores(w, q, mc, script[1..]);
  }

  lemma CreatedShape(w: World, q: Request, mc: MC)
    requires HasShape(w, KeyOf(q), Absent) && mc in w.quotas
    ensures var w' := AfterCreate(w, q, mc);
            && HasShape(w', KeyOf(q), Stored(mc, q.Object()))
            && w'.quotas == Adjusted(w.quotas, mc, 1) && w'.deleteDesires == w.deleteDesires
  {
    NamespaceAndClusterIdsDiffer(q.namespace, q.namespace, q.name);
    assert forall x :: KeyOf(q).At(x) == q.At(x);
    assert forall x, n :: KeyOf(q).At(x) != Loc(n, NamespaceDocumentID(q.namespace));
  }

  // Create, Delete, Create, Delete.

  ghost predicate Quiet(script: seq<Input>, listing: seq<MC>) {
    NoFaults(script) && forall k :: 0 <= k < |script| ==> script[k].listing == listing
  }

  lemma OnlyChoice(mc: MC, capacity: int)
    requires 0 < capacity
    ensures Choose(map[mc := Quota(capacity, 0)], [mc]) == Some(mc)
    ensures Adjusted(map[mc := Quota(capacity, 0)], mc, 1) == map[mc := Quota(capacity, 1)]
    ensures Released(map[mc := Quota(capacity, 1)], mc) == map[mc := Quota(capacity, 0)]
  {
    assert [mc][..0] == [];
  }

  ghost predicate Alone(w: World, mc: MC, capacity: int, key: Key) {
    0 < capacity && w.quotas == map[mc := Quota(capacity, 0)] && HasShape(w, key, Absent)
  }

  lemma CreateOnOnly(w: World, mc: MC, capacity: int, create: Request, script: seq<Input>)
    requires create.kind.Create? && Alone(w, mc, capacity, KeyOf(create)) && |script| >= 7 && Quiet(script, [mc])
    ensures Scripted(script, w.quotas.Keys) && RunAlone(w, create, CheckMapping, script)
              == (AfterCreate(w, create, mc), Done)
    ensures var w1 := AfterCreate(w, create, mc);
            && w1.quotas == map[mc := Quota(capacity, 1)] && w1.deleteDesires == w.deleteDesires
            && HasShape(w1, KeyOf(create), Stored(mc, create.Object()))
  {
    OnlyChoice(mc, capacity);
    CreateStores(w, create, mc, script);
    CreatedShape(w, create, mc);
  }

  /** What a Delete right after that comes to. */
  ghost predicate Deleted(w: World, mc: MC, capacity: int, key: Key, before: bool, response: Response) {
    if before then response == Refused(AlreadyExists) && HasShape(w, key, Stranded(mc))
    else response == Done && Alone(w, mc, capacity, key) && key.At(mc) in w.deleteDesires.docs.Keys
  }

  lemma DeleteOnOnly(w: World, mc: MC, capacity: int, delete: Request, content: Manifest, script: seq<Input>)
    requires delete.kind.Delete? && 0 < capacity && |script| >= 7 && Quiet(script, [mc])
    requires w.quotas == map[mc := Quota(capacity, 1)] && HasShape(w, KeyOf(delete), Stored(mc, content))
    ensures Scripted(script, w.quotas.Keys)
    ensures var (w', response) := RunAlone(w, delete, DeleteLookup, script);
            Deleted(w', mc, capacity, KeyOf(delete), KeyOf(delete).At(mc) in w.deleteDesires.docs.Keys, response)
  {
    OnlyChoice(mc, capacity);
    assert KeyOf(delete).At(mc) == delete.At(mc) && KeyOf(delete).MapId() == delete.MapId();
    DeleteSucceedsIff(w, map[KeyOf(delete) := content], delete, script);
  }

  function Script(mc: MC): seq<Input> { seq(7, _ => Input(Answered, [mc], None)) }

  lemma ServeCreate(s0: System, s: System, r: nat, mc: MC, capacity: int, create: Request)
    requires create.kind.Create? && Reaches(s0, s) && r !in s.procs && Alone(s.world, mc, capacity, KeyOf(create))
    ensures Reaches(s0, System(AfterCreate(s.world, create, mc), s.procs[r := Proc(create, Finished(Done))]))
  {
    CreateOnOnly(s.world, mc, capacity, create, Script(mc));
    ReachesServed(s0, s, r, create, Script(mc));
  }

  lemma ServeDelete(s0: System, s: System, r: nat, mc: MC, capacity: int, delete: Request, content: Manifest)
    returns (w: World, response: Response)
    requires delete.kind.Delete? && 0 < capacity && Reaches(s0, s) && r !in s.procs
    requires s.world.quotas == map[mc := Quota(capacity, 1)] && HasShape(s.world, KeyOf(delete), Stored(mc, content))
    ensures Reaches(s0, System(w, s.procs[r := Proc(delete, Finished(response))]))
    ensures Deleted(w, mc, capacity, KeyOf(delete), KeyOf(delete).At(mc) in s.world.deleteDesires.docs.Keys, response)
  {
    DeleteOnOnly(s.world, mc, capacity, delete, content, Script(mc));
    ReachesServed(s0, s, r, delete, Script(mc));
    var served := RunAlone(s.world, delete, DeleteLookup, Script(mc));
    w, response := served.0, served.1;
  }

  /** Creating an absent name and deleting it again on the only management cluster. */
  lemma OneCycle(s0: System, s: System, r: nat, mc: MC, capacity: int, create: Request, delete: Request)
    returns (end: System)
    requires create.kind.Create? && delete.kind.Delete? && KeyOf(create) == KeyOf(delete)
    requires Reaches(s0, s) && r !in s.procs && r + 1 !in s.procs && Alone(s.world, mc, capacity, KeyOf(create))
    ensures Reaches(s0, end)
    ensures exists response ::
              && end.procs == s.procs[r := Proc(create, Finished(Done))][r + 1 := Proc(delete, Finished(response))]
              && Deleted(end.world, mc, capacity, KeyOf(create),
                         KeyOf(create).At(mc) in s.world.deleteDesires.docs.Keys, response)
  {
    CreateOnOnly(s.world, mc, capacity, create, Script(mc));
    ServeCreate(s0, s, r, mc, capacity, create);
    var s1 := System(AfterCreate(s.world, create, mc), s.procs[r := Proc(create, Finished(Done))]);
    var w, response := ServeDelete(s0, s1, r + 1, mc, capacity, delete, create.Object());
    end := System(w, s1.procs[r + 1 := Proc(delete, Finished(response))]);
  }

  /** One management cluster, and a name created, deleted, created and deleted again: the second
      Delete is refused and the name is stranded. */
  lemma SecondDeleteIsRefused(mc: MC, capacity: int, create: Request, delete: Request)
    requires create.kind.Create? && delete.kind.Delete? && KeyOf(create) == KeyOf(delete) && 0 < capacity
    ensures exists end ::
              && Reaches(System(EmptyWorld(map[mc := Quota(capacity, 0)]), map[]), end)
              && end.procs == map[0 := Proc(create, Finished(Done)), 1 := Proc(delete, Finished(Done)),
                                  2 := Proc(create, Finished(Done)),
                                  3 := Proc(delete, Finished(Refused(AlreadyExists)))]
              && HasShape(end.world, KeyOf(delete), Stranded(mc))
  {
    var s0 := System(EmptyWorld(map[mc := Quota(capacity, 0)]), map[]);
    ReachesItself(s0);
    var s1 := OneCycle(s0, s0, 0, mc, capacity, create, delete);
    var s2 := OneCycle(s0, s1, 2, mc, capacity, create, delete);
    assert Reaches(s0, s2);
  }

  // Two overlapping Creates.

  /** Both requests arrive and make their mapping check. */
  lemma BothCheck(w: World, q: Request, input: Input)
    requires q.kind.Create? && q.MapId() !in w.mappings && Lists(input.listing, w.quotas.Keys)
              && input.outcome == Answered
    ensures Reaches(System(w, map[]), System(w, map[0 := Proc(q, Allocating), 1 := Proc(q, Allocating)]))
  {
    var s0 := System(w, map[]);
    var s1 := System(w, map[0 := Proc(q, CheckMapping)]);
    var s2 := System(w, map[0 := Proc(q, CheckMapping), 1 := Proc(q, CheckMapping)]);
    var s3 := System(w, map[0 := Proc(q, Allocating), 1 := Proc(q, CheckMapping)]);
    ReachesItself(s0);
    ReachesNext(s0, s0, Arrive(0, q), s1);
    ReachesNext(s0, s1, Arrive(1, q), s2);
    ReachesNext(s0, s2, Action.Advance(0, input), s3);
    ReachesNext(s0, s3, Action.Advance(1, input), System(w, map[0 := Proc(q, Allocating), 1 := Proc(q, Allocating)]));
  }

  lemma TwoChoices(mc1: MC, mc2: MC, capacity: int)
    requires mc1 != mc2 && 1 < capacity
    ensures var quotas := map[mc1 := Quota(capacity, 0), mc2 := Quota(capacity, 0)];
            && Lists([mc1, mc2], quotas.Keys) && Choose(quotas, [mc1, mc2]) == Some(mc1)
            && Choose(Adjusted(quotas, mc1, 1), [mc1, mc2]) == Some(mc2)
  {
    var quotas := map[mc1 := Quota(capacity, 0), mc2 := Quota(capacity, 0)];
    var next := Adjusted(quotas, mc1, 1);
    assert [mc1, mc2][..1] == [mc1] && [mc1][..0] == [];
    assert Choose(quotas, []) == None && Choose(quotas, [mc1]) == Some(mc1);
    assert Choose(next, []) == None && Choose(next, [mc1]) == Some(mc1);
  }

  /** From there on, each is served in turn. */
  lemma BothAreServed(w: World, q: Request, mc1: MC, mc2: MC, script: seq<Input>)
    returns (end: System)
    requires |script| >= 5 && Scripted(script, w.quotas.Keys) && NoFaults(script)
    requires w.applyDesires.docs == map[] && w.readDesires.docs == map[]
    requires mc1 != mc2 && Choose(w.quotas, script[0].listing) == Some(mc1)
    requires Choose(Adjusted(w.quotas, mc1, 1), script[0].listing) == Some(mc2)
    ensures Reaches(System(w, map[0 := Proc(q, Allocating), 1 := Proc(q, Allocating)]), end)
    ensures end.procs == map[0 := Proc(q, Finished(Done)), 1 := Proc(q, Finished(Done))]
    ensures CreatedOn(end.world, q, mc1) && CreatedOn(end.world, q, mc2)
  {
    var s := System(w, map[0 := Proc(q, Allocating), 1 := Proc(q, Allocating)]);
    OverlappingCreatesDiverge(s, 0, 1, q, mc1, mc2, script, script);
    var run :| ValidRun(s, run) && CreatedOn(Run(s, run).world, q, mc1) && CreatedOn(Run(s, run).world, q, mc2)
               && Run(s, run).procs == s.procs[0 := Proc(q, Finished(Done))][1 := Proc(q, Finished(Done))];
    end := Run(s, run);
  }

  /** Two management clusters with room, an empty store, and two Creates of one name: both can be
      answered with success, and the name be stored on both. */
  lemma TwoCreatesDiverge(mc1: MC, mc2: MC, capacity: int, q: Request)
    requires mc1 != mc2 && 1 < capacity && q.kind.Create?
    ensures exists end ::
              && Reaches(System(EmptyWorld(map[mc1 := Quota(capacity, 0), mc2 := Quota(capacity, 0)]), map[]), end)
              && end.procs == map[0 := Proc(q, Finished(Done)), 1 := Proc(q, Finished(Done))]
              && CreatedOn(end.world, q, mc1) && CreatedOn(end.world, q, mc2)
  {
    var quotas := map[mc1 := Quota(capacity, 0), mc2 := Quota(capacity, 0)];
    var w := EmptyWorld(quotas);
    var script := seq(5, _ => Input(Answered, [mc1, mc2], None));
    TwoChoices(mc1, mc2, capacity);
    BothCheck(w, q, script[0]);
    var end := BothAreServed(w, q, mc1, mc2, script);
    ReachesThrough(System(w, map[]), System(w, map[0 := Proc(q, Allocating), 1 := Proc(q, Allocating)]), end);
  }
}
