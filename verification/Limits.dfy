/**
  Two places where the protocol of internal/apiserver/handlers.go is weaker than a map,
  and exactly when.
 */
module Limits {
  import opened Wrappers
  import opened DesireId
  import opened Desires
  import opened Placement
  import opened Protocol
  import opened Solo
  import opened PlainMap

  /** Mapped, but with nothing stored. */
  function Stranded(mc: MC): Shape { Shape(Some(mc), None, None, None) }

  lemma RemovedShape(w: World, q: Request, mc: MC, content: Manifest)
    requires HasShape(w, KeyOf(q), Stored(mc, content))
    ensures HasShape(Apply(Apply(w, RemoveApply(q.At(mc))), RemoveRead(q.At(mc))), KeyOf(q), Stranded(mc))
  {
    assert forall x :: KeyOf(q).At(x) == q.At(x);
  }

  lemma UnmappedShape(w: World, q: Request, mc: MC)
    requires HasShape(w, KeyOf(q), Stranded(mc))
    ensures HasShape(Apply(w, DropMapping(q.MapId())), KeyOf(q), Absent)
  {
  }

  /** The first two calls of a Delete find the stored cluster. */
  lemma Located(w: World, q: Request, mc: MC, content: Manifest, script: seq<Input>)
    requires q.kind.Delete? && HasShape(w, KeyOf(q), Stored(mc, content))
    requires |script| >= 7 && Scripted(script, w.quotas.Keys) && NoFaults(script)
    ensures q.At(mc) in w.applyDesires.docs
    ensures RunAlone(w, q, DeleteLookup, script)
         == RunAlone(w, q, RemovingApply(mc, w.applyDesires.docs[q.At(mc)].value.clusterID), script[2..])
  {
    assert KeyOf(q).At(mc) in w.applyDesires.docs;
    OneCall(w, q, DeleteLookup, script, Nothing, DeleteRead(mc));
    assert script[1..][0] == script[1] && script[1..][1..] == script[2..];
    var clusterID := w.applyDesires.docs[q.At(mc)].value.clusterID;
    OneCall(w, q, DeleteRead(mc), script[1..], Nothing, RemovingApply(mc, clusterID));
  }

  /** The next two remove both desires. */
  lemma Removed(w: World, q: Request, mc: MC, cid: string, script: seq<Input>)
    requires |script| >= 5 && Scripted(script, w.quotas.Keys) && NoFaults(script)
    ensures var w' := Apply(Apply(w, RemoveApply(q.At(mc))), RemoveRead(q.At(mc)));
            && w'.quotas == w.quotas && Scripted(script[2..], w.quotas.Keys) && NoFaults(script[2..])
            && RunAlone(w, q, RemovingApply(mc, cid), script) == RunAlone(w', q, WritingDelete(mc, cid), script[2..])
  {
    OneCall(w, q, RemovingApply(mc, cid), script, RemoveApply(q.At(mc)), RemovingRead(mc, cid));
    assert script[1..][0] == script[1] && script[1..][1..] == script[2..];
    OneCall(Apply(w, RemoveApply(q.At(mc))), q, RemovingRead(mc, cid), script[1..], RemoveRead(q.At(mc)),
            WritingDelete(mc, cid));
  }

  function Released(quotas: Quotas, mc: MC): Quotas
    requires mc in quotas
  {
    if quotas[mc].load <= 0 then quotas else Adjusted(quotas, mc, -1)
  }

  function AfterBurial(w: World, q: Request, mc: MC, cid: string): World
    requires mc in w.quotas
  {
    var inserted := Apply(w, InsertDelete(q.At(mc), TargetDesire(mc, cid, ClusterTarget(q.namespace, q.name))));
    Apply(inserted.(quotas := Released(w.quotas, mc)), DropMapping(q.MapId()))
  }

  lemma BurialLeaves(w: World, q: Request, mc: MC, cid: string)
    requires mc in w.quotas && q.At(mc) !in w.deleteDesires.docs && HasShape(w, KeyOf(q), Stranded(mc))
    ensures var w' := AfterBurial(w, q, mc, cid);
            && HasShape(w', KeyOf(q), Absent) && w'.quotas == Released(w.quotas, mc)
            && w'.deleteDesires.docs.Keys == w.deleteDesires.docs.Keys + {q.At(mc)}
  {
  }

  /** The rest succeeds if there is no DeleteDesire in the way ... */
  lemma Buried(w: World, q: Request, mc: MC, cid: string, script: seq<Input>)
    requires mc in w.quotas && q.At(mc) !in w.deleteDesires.docs
    requires |script| >= 3 && Scripted(script, w.quotas.Keys) && NoFaults(script)
    ensures RunAlone(w, q, WritingDelete(mc, cid), script) == (AfterBurial(w, q, mc, cid), Done)
  {
    var insert := InsertDelete(q.At(mc), TargetDesire(mc, cid, ClusterTarget(q.namespace, q.name)));
    var release := if w.quotas[mc].load <= 0 then Nothing else Release(mc);
    var w1 := Apply(w, insert);
    var w2 := Apply(w1, release);
    OneCall(w, q, WritingDelete(mc, cid), script, insert, Releasing(mc));
    assert script[1..][0] == script[1] && script[1..][1..] == script[2..] && script[2..][0] == script[2];
    OneCall(w1, q, Releasing(mc), script[1..], release, Unmapping(mc));
    OneCall(w2, q, Unmapping(mc), script[2..], DropMapping(q.MapId()), Finished(Done));
    assert w2 == w1.(quotas := Released(w.quotas, mc));
  }

  /** ... and stops at once if there is. */
  lemma BuriedBefore(w: World, q: Request, mc: MC, cid: string, script: seq<Input>)
    requires q.At(mc) in w.deleteDesires.docs
    requires |script| >= 3 && Scripted(script, w.quotas.Keys) && NoFaults(script)
    ensures RunAlone(w, q, WritingDelete(mc, cid), script) == (w, Refused(AlreadyExists))
  {
    OneCall(w, q, WritingDelete(mc, cid), script, Nothing, Finished(Refused(AlreadyExists)));
  }

  /** A fault-free Delete of a stored name succeeds if and only if the name was never
      deleted before on the management cluster that holds it: nothing removes the old
      DeleteDesire. Otherwise it stops with AlreadyExists and leaves the name mapped but
      with nothing stored, so that it can be neither read, updated nor created again. */
  lemma DeleteSucceedsIff(w: World, m: Objects, q: Request, script: seq<Input>)
    requires q.kind.Delete? && KeyOf(q) in m && Settled(w, m, KeyOf(q))
    requires |script| >= 7 && Scripted(script, w.quotas.Keys) && NoFaults(script)
    ensures var (w', response) := RunAlone(w, q, DeleteLookup, script);
            && (response == Done <==> NeverDeletedHere(w, KeyOf(q)))
            && (response == Done ==>
                  var mc := w.mappings[q.MapId()];
                  && HasShape(w', KeyOf(q), Absent) && mc in w.quotas && w'.quotas == Released(w.quotas, mc)
                  && w'.deleteDesires.docs.Keys == w.deleteDesires.docs.Keys + {q.At(mc)})
            && (response != Done ==>
                  response == Refused(AlreadyExists) && HasShape(w', KeyOf(q), Stranded(w.mappings[q.MapId()])))
  {
    var mc := w.mappings[q.MapId()];
    Located(w, q, mc, m[KeyOf(q)], script);
    var cid := w.applyDesires.docs[q.At(mc)].value.clusterID;
    Removed(w, q, mc, cid, script[2..]);
    RemovedShape(w, q, mc, m[KeyOf(q)]);
    var w' := Apply(Apply(w, RemoveApply(q.At(mc))), RemoveRead(q.At(mc)));
    assert KeyOf(q).At(mc) == q.At(mc);
    if q.At(mc) in w.deleteDesires.docs {
      BuriedBefore(w', q, mc, cid, script[2..][2..]);
    } else {
      Buried(w', q, mc, cid, script[2..][2..]);
      BurialLeaves(w', q, mc, cid);
    }
  }

  /** What a stranded name answers from then on, whoever asks. */
  lemma StrandedAnswers(w: World, q: Request, mc: MC, script: seq<Input>)
    requires HasShape(w, KeyOf(q), Stranded(mc))
    requires |script| >= 7 && Scripted(script, w.quotas.Keys) && NoFaults(script)
    ensures RunAlone(w, q, Start(q.kind), script) == (w, if q.kind.Create? then Conflict else Refused(NotFound))
  {
    var s1, s2 := script[1..], script[2..];
    assert KeyOf(q).At(mc) == q.At(mc);
    assert s1[0] == script[1] && s1[1..] == s2 && s2[0] == script[2];
    match q.kind
    case Create => OneCall(w, q, CheckMapping, script, Nothing, Finished(Conflict));
    case Update =>
      OneCall(w, q, UpdateLookup, script, Nothing, UpdateRead(mc));
      OneCall(w, q, UpdateRead(mc), s1, Nothing, Finished(Refused(NotFound)));
    case Delete =>
      OneCall(w, q, DeleteLookup, script, Nothing, DeleteRead(mc));
      OneCall(w, q, DeleteRead(mc), s1, Nothing, Finished(Refused(NotFound)));
    case Get =>
      OneCall(w, q, GetLookup, script, Nothing, GetStatusRead(mc));
      OneCall(w, q, GetStatusRead(mc), s1, Nothing, GetStatusApply(mc, None));
      assert s2[1..] == script[3..] && script[3..][0] == script[3];
      OneCall(w, q, GetStatusApply(mc, None), s2, Nothing, GetSpec(mc));
      OneCall(w, q, GetSpec(mc), script[3..], Nothing, Finished(Refused(NotFound)));
  }

  // Overlapping Creates.

  function AfterApply(w: World, q: Request, mc: MC): World
    requires mc in w.quotas
  {
    var nsLoc := Loc(mc, NamespaceDocumentID(q.namespace));
    var ns := if nsLoc in w.applyDesires.docs then Nothing else InsertApply(nsLoc, NamespaceDesire(mc, q.namespace));
    Apply(Apply(Apply(w, Effect.Allocate(mc)), ns), InsertApply(q.At(mc), q.Desire(mc)))
  }

  lemma ApplyLeaves(w: World, q: Request, mc: MC)
    requires mc in w.quotas
    ensures var w' := AfterApply(w, q, mc);
            && w'.quotas == Adjusted(w.quotas, mc, 1) && w'.readDesires == w.readDesires
            && w'.applyDesires.docs.Keys
               == w.applyDesires.docs.Keys + {Loc(mc, NamespaceDocumentID(q.namespace)), q.At(mc)}
  {
  }

  /** A Create past its mapping check is placed and writes its ApplyDesire there ... */
  lemma CreateApplies(w: World, q: Request, mc: MC, script: seq<Input>)
    requires |script| >= 5 && Scripted(script, w.quotas.Keys) && NoFaults(script)
    requires Choose(w.quotas, script[0].listing) == Some(mc) && q.At(mc) !in w.applyDesires.docs
    ensures RunAlone(w, q, Allocating, script) == RunAlone(AfterApply(w, q, mc), q, WritingRead(mc), script[3..])
  {
    var nsLoc := Loc(mc, NamespaceDocumentID(q.namespace));
    var ns := if nsLoc in w.applyDesires.docs then Nothing else InsertApply(nsLoc, NamespaceDesire(mc, q.namespace));
    var w1 := Apply(w, Effect.Allocate(mc));
    NamespaceAndClusterIdsDiffer(q.namespace, q.namespace, q.name);
    assert script[1..][0] == script[1] && script[1..][1..] == script[2..];
    assert script[2..][0] == script[2] && script[2..][1..] == script[3..];
    OneCall(w, q, Allocating, script, Effect.Allocate(mc), WritingNamespace(mc));
    OneCall(w1, q, WritingNamespace(mc), script[1..], ns, WritingApply(mc));
    OneCall(Apply(w1, ns), q, WritingApply(mc), script[2..], InsertApply(q.At(mc), q.Desire(mc)), WritingRead(mc));
  }

  function AfterPublish(w: World, q: Request, mc: MC): World {
    Apply(Apply(w, InsertRead(q.At(mc), TargetDesire(mc, q.clusterID, ClusterTarget(q.namespace, q.name)))),
          PutMapping(q.MapId(), mc))
  }

  /** ... and then publishes itself. */
  lemma CreatePublishes(w: World, q: Request, mc: MC, script: seq<Input>)
    requires |script| >= 2 && Scripted(script, w.quotas.Keys) && NoFaults(script) && q.At(mc) !in w.readDesires.docs
    ensures var (w', response) := RunAlone(w, q, WritingRead(mc), script);
            && response == Done && w' == AfterPublish(w, q, mc)
            && w'.quotas == w.quotas && w'.applyDesires == w.applyDesires
            && w'.readDesires.docs.Keys == w.readDesires.docs.Keys + {q.At(mc)}
  {
    var read := InsertRead(q.At(mc), TargetDesire(mc, q.clusterID, ClusterTarget(q.namespace, q.name)));
    assert script[1..][0] == script[1];
    OneCall(w, q, WritingRead(mc), script, read, WritingMapping(mc));
    OneCall(Apply(w, read), q, WritingMapping(mc), script[1..], PutMapping(q.MapId(), mc), Finished(Done));
  }

  lemma CreateLands(w: World, q: Request, mc: MC, script: seq<Input>)
    requires |script| >= 5 && Scripted(script, w.quotas.Keys) && NoFaults(script)
    requires Choose(w.quotas, script[0].listing) == Some(mc)
    requires q.At(mc) !in w.applyDesires.docs && q.At(mc) !in w.readDesires.docs
    ensures var (w', response) := RunAlone(w, q, Allocating, script);
            && response == Done
            && w'.quotas == Adjusted(w.quotas, mc, 1)
            && w'.applyDesires.docs.Keys
               == w.applyDesires.docs.Keys + {Loc(mc, NamespaceDocumentID(q.namespace)), q.At(mc)}
            && w'.readDesires.docs.Keys == w.readDesires.docs.Keys + {q.At(mc)}
  {
    CreateApplies(w, q, mc, script);
    ApplyLeaves(w, q, mc);
    Tail(script, 3, w.quotas.Keys);
    CreatePublishes(AfterApply(w, q, mc), q, mc, script[3..]);
  }

  ghost predicate CreatedOn(w: World, q: Request, mc: MC) {
    q.At(mc) in w.applyDesires.docs && q.At(mc) in w.readDesires.docs
  }

  lemma BothLand(w: World, q: Request, mc1: MC, mc2: MC, script1: seq<Input>, script2: seq<Input>)
    requires |script1| >= 5 && Scripted(script1, w.quotas.Keys) && NoFaults(script1)
    requires |script2| >= 5 && Scripted(script2, w.quotas.Keys) && NoFaults(script2)
    requires forall mc :: q.At(mc) !in w.applyDesires.docs && q.At(mc) !in w.readDesires.docs
    requires mc1 != mc2 && Choose(w.quotas, script1[0].listing) == Some(mc1)
    requires Choose(Adjusted(w.quotas, mc1, 1), script2[0].listing) == Some(mc2)
    ensures var (w1, r1) := RunAlone(w, q, Allocating, script1);
            && r1 == Done && w1.quotas.Keys == w.quotas.Keys
            && var (w2, r2) := RunAlone(w1, q, Allocating, script2);
               r2 == Done && CreatedOn(w2, q, mc1) && CreatedOn(w2, q, mc2)
  {
    CreateLands(w, q, mc1, script1);
    var w1 := RunAlone(w, q, Allocating, script1).0;
    assert q.At(mc2) !in w1.applyDesires.docs.Keys && q.At(mc2) !in w1.readDesires.docs.Keys;
    assert q.At(mc1) in w1.applyDesires.docs.Keys && q.At(mc1) in w1.readDesires.docs.Keys;
    assert w1.quotas == Adjusted(w.quotas, mc1, 1) && w1.quotas.Keys == w.quotas.Keys;
    CreateLands(w1, q, mc2, script2);
    var w2 := RunAlone(w1, q, Allocating, script2).0;
    assert q.At(mc1) in w2.applyDesires.docs.Keys && q.At(mc2) in w2.applyDesires.docs.Keys;
    assert q.At(mc1) in w2.readDesires.docs.Keys && q.At(mc2) in w2.readDesires.docs.Keys;
  }

  /** Two Creates of one name that have both passed the mapping check can both succeed, and the
      cluster ends up on two management clusters, whenever their placements differ. */
  lemma OverlappingCreatesDiverge(s: System, r1: nat, r2: nat, q: Request, mc1: MC, mc2: MC,
                                  script1: seq<Input>, script2: seq<Input>)
    requires r1 != r2 && r1 in s.procs && r2 in s.procs && s.procs[r1] == s.procs[r2] == Proc(q, Allocating)
    requires |script1| >= 5 && Scripted(script1, s.world.quotas.Keys) && NoFaults(script1)
    requires |script2| >= 5 && Scripted(script2, s.world.quotas.Keys) && NoFaults(script2)
    requires forall mc :: q.At(mc) !in s.world.applyDesires.docs && q.At(mc) !in s.world.readDesires.docs
    requires mc1 != mc2 && Choose(s.world.quotas, script1[0].listing) == Some(mc1)
    requires Choose(Adjusted(s.world.quotas, mc1, 1), script2[0].listing) == Some(mc2)
    ensures exists run :: ValidRun(s, run)
              && CreatedOn(Run(s, run).world, q, mc1) && CreatedOn(Run(s, run).world, q, mc2)
              && Run(s, run).procs == s.procs[r1 := Proc(q, Finished(Done))][r2 := Proc(q, Finished(Done))]
  {
    BothLand(s.world, q, mc1, mc2, script1, script2);
    AloneIsARun(s, r1, script1);
    var run1 := AloneActions(s.world, r1, q, Allocating, script1);
    var s1 := Run(s, run1);
    AloneIsARun(s1, r2, script2);
    var run2 := AloneActions(s1.world, r2, q, Allocating, script2);
    RunsCompose(s, run1, run2);
    assert CreatedOn(Run(s, run1 + run2).world, q, mc1);
  }

  lemma {:induction false} RunsCompose(s: System, run1: seq<Action>, run2: seq<Action>)
    requires ValidRun(s, run1) && ValidRun(Run(s, run1), run2)
    ensures ValidRun(s, run1 + run2) && Run(s, run1 + run2) == Run(Run(s, run1), run2)
    decreases |run1|
  {
    if run1 == [] {
      assert run1 + run2 == run2;
    } else {
      assert (run1 + run2)[1..] == run1[1..] + run2;
      RunsCompose(After(s, run1[0]), run1[1..], run2);
    }
  }
}
