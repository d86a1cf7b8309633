/**
  ApplyDesires and DeleteDesires apart, over all interleavings and faults
  (internal/apiserver/handlers.go): as long as no cluster is placed twice on one management
  cluster, none ever has both there. The proof reads off the ledger of Capacity.
 */
module Apart {
  import opened DesireId
  import opened Desires
  import opened Placement
  import opened Protocol
  import opened Addressing
  import opened Capacity

  /** Where a Create that is placed has yet to write its ApplyDesire. */
  predicate WritesAt(p: Proc, loc: Loc) {
    (p.pc.WritingNamespace? || p.pc.WritingApply?) && loc == p.request.At(p.pc.mc)
  }

  /** What a call does to a document that only clusters use. */
  ghost predicate Fits(w: World, l: Ledger, p: Proc, e: Effect, next: Pc) {
    && Origin(w, p.request, p.pc, e, next)
    && forall loc :: WritesAt(Proc(p.request, next), loc) ==>
         if e.Allocate? then loc == p.request.At(e.mc)
         else WritesAt(p, loc) && (e.InsertApply? ==> !IsCluster(e.apply.target))
  }

  lemma CallFits(w: World, l: Ledger, p: Proc, i: Input)
    requires WorldAddressed(w) && ProcAddressed(p) && !p.pc.Finished? && Lists(i.listing, w.quotas.Keys)
    ensures var (e, next) := Call(w, p.request, p.pc, i);
            Fits(w, l, p, e, next)
  {
    CallOrigin(w, p.request, p.pc, i);
  }

  /** One document's life: written by one Create at a time, then stored, then deleted for good. */
  ghost predicate LocInv(s: System, l: Ledger, used: set<Loc>, loc: Loc) {
    && (loc !in used ==> !IsLive(s.world, loc) && l.Deletions(loc) == 0)
    && (IsLive(s.world, loc) ==> l.Deletions(loc) == 0)
    && (forall r :: r in s.procs && WritesAt(s.procs[r], loc) ==>
          loc in used && !IsLive(s.world, loc) && l.Deletions(loc) == 0)
    && (forall r1, r2 :: r1 in s.procs && r2 in s.procs && WritesAt(s.procs[r1], loc) && WritesAt(s.procs[r2], loc) ==>
        r1 == r2)
  }

  ghost function Placed(q: Request, e: Effect): set<Loc> {
    if e.Allocate? then {q.At(e.mc)} else {}
  }

  /** The call changes whether the document is live, and its deletions, only this way. */
  lemma LiveAfter(w: World, l: Ledger, r: nat, p: Proc, e: Effect, next: Pc, loc: Loc)
    requires Fits(w, l, p, e, next)
    ensures var w', l' := Apply(w, e), Note(l, w, r, p.request, e, next);
            && (IsLive(w', loc) && !IsLive(w, loc) ==> e.InsertApply? && IsCluster(e.apply.target) && WritesAt(p, loc))
            && (IsLive(w', loc) ==> l'.Deletions(loc) == l.Deletions(loc))
            && (l'.Deletions(loc) != l.Deletions(loc) ==> e == RemoveApply(loc) && IsLive(w, loc))
  {
  }

  lemma CallKeepsLoc(s: System, l: Ledger, used: set<Loc>, r: nat, e: Effect, next: Pc, loc: Loc)
    requires r in s.procs && Fits(s.world, l, s.procs[r], e, next) && LocInv(s, l, used, loc)
    requires Placed(s.procs[r].request, e) !! used
    ensures var p := s.procs[r];
            LocInv(System(Apply(s.world, e), s.procs[r := Proc(p.request, next)]),
                   Note(l, s.world, r, p.request, e, next),
                   used + Placed(p.request, e), loc)
  {
    var p := s.procs[r];
    LiveAfter(s.world, l, r, p, e, next, loc);
  }

  /** Each placement of the run is at a document not placed, nor stored at the start, before. */
  ghost predicate PlacedOnce(s: System, run: seq<Action>, used: set<Loc>)
    requires ValidRun(s, run)
    decreases |run|
  {
    run == [] ||
    (&& Placed(RequestOf(s, run[0]), Move(s, run[0]).0) !! used
     && PlacedOnce(After(s, run[0]), run[1..], used + Placed(RequestOf(s, run[0]), Move(s, run[0]).0)))
  }

  ghost function UsedAfter(s: System, run: seq<Action>, used: set<Loc>): set<Loc>
    requires ValidRun(s, run)
    decreases |run|
  {
    if run == [] then used
    else UsedAfter(After(s, run[0]), run[1..], used + Placed(RequestOf(s, run[0]), Move(s, run[0]).0))
  }

  lemma ArrivalKeepsLoc(s: System, l: Ledger, r: nat, q: Request, used: set<Loc>, loc: Loc)
    requires r !in s.procs && LocInv(s, l, used, loc)
    ensures LocInv(After(s, Arrive(r, q)), Noted(l, s, Arrive(r, q)), used + {}, loc)
  {
    var s' := System(s.world, s.procs[r := Proc(q, Start(q.kind))]);
    assert After(s, Arrive(r, q)) == s' && Noted(l, s, Arrive(r, q)) == l && used + {} == used;
    assert !WritesAt(Proc(q, Start(q.kind)), loc);
  }

  lemma StepKeepsLoc(s: System, l: Ledger, start: Quotas, a: Action, used: set<Loc>, loc: Loc)
    requires Inv(s, l, start) && Enabled(s, a) && LocInv(s, l, used, loc)
    requires Placed(RequestOf(s, a), Move(s, a).0) !! used
    ensures LocInv(After(s, a), Noted(l, s, a), used + Placed(RequestOf(s, a), Move(s, a).0), loc)
  {
    match a
    case Arrive(r, q) => ArrivalKeepsLoc(s, l, r, q, used, loc);
    case Advance(r, i) =>
      CallFits(s.world, l, s.procs[r], i);
      CallKeepsLoc(s, l, used, r, Move(s, a).0, Move(s, a).1, loc);
  }

  lemma {:induction false} RunKeepsLoc(s: System, l: Ledger, start: Quotas, run: seq<Action>, used: set<Loc>, loc: Loc)
    requires Inv(s, l, start) && ValidRun(s, run) && PlacedOnce(s, run, used) && LocInv(s, l, used, loc)
    ensures LocInv(Run(s, run), LedgerAfter(l, s, run), UsedAfter(s, run, used), loc)
    decreases |run|
  {
    if run != [] {
      var a := run[0];
      match a {
        case Arrive(r, q) => ArriveKeepsInv(s, l, start, r, q);
        case Advance(r, i) => AdvanceKeepsInv(s, l, start, r, i);
      }
      StepKeepsLoc(s, l, start, a, used, loc);
      RunKeepsLoc(After(s, a), Noted(l, s, a), start, run[1..], used + Placed(RequestOf(s, a), Move(s, a).0), loc);
    }
  }

  /** The clusters stored at the start count as placed there. */
  ghost function StoredAt(w: World): set<Loc> { set loc | loc in w.applyDesires.docs && IsLive(w, loc) }

  /** While no cluster is placed a second time on a management cluster, no reachable state holds
      an ApplyDesire and a DeleteDesire for it side by side -- whatever requests overlap, for
      whatever names, stopping or failing wherever they do. */
  lemma PlacedOnceStaysApart(s: System, run: seq<Action>, namespace: string, name: string, mc: MC)
    requires Initial(s) && ValidRun(s, run) && PlacedOnce(s, run, StoredAt(s.world))
    ensures var loc, w := Loc(mc, ClusterDocumentID(namespace, name)), Run(s, run).world;
            !(loc in w.applyDesires.docs && loc in w.deleteDesires.docs)
  {
    var loc, w := Loc(mc, ClusterDocumentID(namespace, name)), Run(s, run).world;
    var l0, start := InitialLedger(s.world), s.world.quotas;
    InitialInv(s);
    RunKeepsInv(s, l0, start, run);
    RunKeepsLoc(s, l0, start, run, StoredAt(s.world), loc);
    if loc in w.applyDesires.docs {
      var d := w.applyDesires.docs[loc].value;
      ClusterIdHoldsCluster(loc, d.managementCluster, d.target, namespace, name);
      assert IsLive(w, loc);
    }
  }
}
