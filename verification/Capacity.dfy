/**
  Capacity safety of the whole protocol (internal/apiserver/handlers.go and
  internal/placement/placement.go): over any interleaving of any requests, with lost and
  failed calls, no management cluster ever carries more clusters than are counted on it,
  nor counts more than it has room for.

  The proof keeps a ledger beside the system. Every counted unit of capacity has exactly
  one owner, so the number of owners *is* the counter.
 */
module Capacity {
  import opened Wrappers
  import opened DesireId
  import opened Desires
  import opened Placement
  import opened Protocol
  import opened Addressing

  /** Who holds a unit of capacity: a stored ApplyDesire; a Create between its allocation
      and its ApplyDesire (for good, if it stops there); the k-th effective deletion of an
      ApplyDesire; or nobody known, from before the run. */
  datatype Unit = Live(id: DocumentID) | Pending(r: nat) | Freed(id: DocumentID, k: nat) | Spare(i: nat)

  /** Request `r` created the DeleteDesire at `loc` and went on to Release. */
  datatype Win = Win(loc: Loc, r: nat)

  datatype Ledger = Ledger(
    owners: map<MC, set<Unit>>,
    deletions: map<Loc, nat>,
    released: set<Loc>,
    wins: seq<Win>,
    allocations: map<MC, nat>,
    releases: map<MC, nat>)
  {
    function Owners(mc: MC): set<Unit> { if mc in owners then owners[mc] else {} }

    function Deletions(loc: Loc): nat { Count(deletions, loc) }
  }

  /** The book-keeping of one call by request `r`. It only watches the system. */
  ghost function Note(l: Ledger, w: World, r: nat, q: Request, e: Effect, next: Pc): Ledger {
    match e
    case Allocate(mc) =>
      l.(owners := l.owners[mc := l.Owners(mc) + {Pending(r)}], allocations := Bump(l.allocations, mc))
    case InsertApply(loc, d) =>
      if IsCluster(d.target)
      then l.(owners := l.owners[loc.mc := l.Owners(loc.mc) - {Pending(r)} + {Live(loc.id)}])
      else l
    case RemoveApply(loc) =>
      if loc in w.applyDesires.docs
      then l.(owners := l.owners[loc.mc := l.Owners(loc.mc) - {Live(loc.id)} + {Freed(loc.id, l.Deletions(loc))}],
              deletions := Bump(l.deletions, loc))
      else l
    case InsertDelete(loc, _) =>
      if next.Releasing? then l.(wins := l.wins + [Win(loc, r)]) else l
    case Release(mc) =>
      l.(owners := l.owners[mc := l.Owners(mc) - {Freed(q.Id(), 0)}],
         released := l.released + {q.At(mc)}, releases := Bump(l.releases, mc))
    case _ => l
  }

  predicate IsLive(w: World, loc: Loc) {
    loc in w.applyDesires.docs && IsCluster(w.applyDesires.docs[loc].value.target)
  }

  // The invariant, part by part.

  /** The owners on each management cluster are as many as its `allocated` field says. */
  ghost predicate Counted(w: World, l: Ledger) {
    && l.owners.Keys == w.quotas.Keys
    && forall mc :: mc in w.quotas ==> |l.owners[mc]| == w.quotas[mc].load <= w.quotas[mc].capacity
  }

  /** Exactly the stored clusters are live owners. */
  ghost predicate LiveOwned(w: World, l: Ledger) {
    && (forall loc :: loc in w.applyDesires.docs && IsCluster(w.applyDesires.docs[loc].value.target) ==>
        loc.mc in w.quotas)
    && (forall mc, id :: mc in l.owners ==> (Live(id) in l.owners[mc] <==> IsLive(w, Loc(mc, id))))
  }

  /** A deleted cluster's unit stays owned until its one Release. */
  ghost predicate FreedOwned(w: World, l: Ledger) {
    && (forall loc :: loc in l.deletions ==> loc.mc in w.quotas)
    && (forall mc, id, k: nat :: mc in l.owners ==>
          (Freed(id, k) in l.owners[mc] <==>
             k < l.Deletions(Loc(mc, id)) && !(k == 0 && Loc(mc, id) in l.released)))
  }

  /** A DeleteDesire means the ApplyDesire was deleted; each has at most one winner. */
  ghost predicate OneWinner(w: World, l: Ledger) {
    && (forall loc :: loc in w.deleteDesires.docs ==> l.Deletions(loc) >= 1)
    && (forall loc :: loc in l.released ==> loc in w.deleteDesires.docs)
    && (forall i :: 0 <= i < |l.wins| ==> l.wins[i].loc in w.deleteDesires.docs)
    && (forall i, j :: 0 <= i < j < |l.wins| ==> l.wins[i].loc != l.wins[j].loc)
  }

  ghost predicate PendingKnown(procs: map<nat, Proc>, l: Ledger) {
    forall mc, r :: mc in l.owners && Pending(r) in l.owners[mc] ==>
      r in procs && !procs[r].pc.CheckMapping? && !procs[r].pc.Allocating?
  }

  ghost predicate ProcOwns(w: World, l: Ledger, r: nat, p: Proc) {
    match p.pc
    case WritingNamespace(mc) => Pending(r) in l.Owners(mc)
    case WritingApply(mc) => Pending(r) in l.Owners(mc)
    case RemovingApply(mc, _) => IsLive(w, p.request.At(mc)) || l.Deletions(p.request.At(mc)) >= 1
    case RemovingRead(mc, _) => l.Deletions(p.request.At(mc)) >= 1
    case WritingDelete(mc, _) => l.Deletions(p.request.At(mc)) >= 1
    case Releasing(mc) =>
      && l.Deletions(p.request.At(mc)) >= 1
      && p.request.At(mc) !in l.released
      && Win(p.request.At(mc), r) in l.wins
    case _ => true
  }

  ghost predicate ProcsOwn(w: World, procs: map<nat, Proc>, l: Ledger) {
    forall r :: r in procs ==> ProcOwns(w, l, r, procs[r])
  }

  /** The counter moved by exactly the allocations and releases of the run. */
  ghost predicate Accounted(w: World, l: Ledger, start: Quotas) {
    && w.quotas.Keys == start.Keys
    && forall mc :: mc in start ==>
         && w.quotas[mc].capacity == start[mc].capacity
         && w.quotas[mc].load == start[mc].load + Count(l.allocations, mc) - Count(l.releases, mc)
  }

  ghost predicate Inv(s: System, l: Ledger, start: Quotas) {
    && SystemAddressed(s)
    && Counted(s.world, l) && LiveOwned(s.world, l) && FreedOwned(s.world, l)
    && OneWinner(s.world, l) && PendingKnown(s.procs, l) && ProcsOwn(s.world, s.procs, l)
    && Accounted(s.world, l, start)
  }

  /** Nobody reaches Release without a unit to give back: its guard is dead code. */
  lemma ReleaseIsCovered(s: System, l: Ledger, start: Quotas, r: nat)
    requires Inv(s, l, start) && r in s.procs && s.procs[r].pc.Releasing?
    ensures var mc := s.procs[r].pc.mc;
            && mc in s.world.quotas && s.world.quotas[mc].load >= 1
            && Freed(s.procs[r].request.Id(), 0) in l.owners[mc]
  {
    var p := s.procs[r];
    var mc := p.pc.mc;
    assert ProcOwns(s.world, l, r, p);
    assert p.request.At(mc) in l.deletions;
    assert Freed(p.request.Id(), 0) in l.owners[mc];
    assert l.owners[mc] != {};
  }

  /** Which call has which effect, and under which circumstances. */
  ghost predicate Origin(w: World, q: Request, pc: Pc, e: Effect, next: Pc) {
    && Applicable(w, e)
    && match e
       case Allocate(mc) => pc.Allocating? && w.quotas[mc].HasRoom()
       case InsertApply(loc, d) =>
         && loc !in w.applyDesires.docs
         && (IsCluster(d.target) ==> pc == WritingApply(loc.mc) && loc == q.At(loc.mc))
       case ReplaceApply(loc, basis, d) => IsLive(w, loc) && IsCluster(d.target)
       case RemoveApply(loc) =>
         pc.RemovingApply? && loc == q.At(pc.mc) && (loc in w.applyDesires.docs ==> IsLive(w, loc))
       case InsertDelete(loc, _) => pc.WritingDelete? && loc == q.At(pc.mc) && loc !in w.deleteDesires.docs
       case Release(mc) => pc == Releasing(mc) && w.quotas[mc].load > 0
       case _ => true
  }

  lemma CallOrigin(w: World, q: Request, pc: Pc, i: Input)
    requires WorldAddressed(w) && ProcAddressed(Proc(q, pc)) && !pc.Finished? && Lists(i.listing, w.quotas.Keys)
    ensures Origin(w, q, pc, Call(w, q, pc, i).0, Call(w, q, pc, i).1)
  {
    if pc.Allocating? {
      ChooseIsLeastLoaded(w.quotas, i.listing);
    } else if (pc.Replacing? || pc.RemovingApply?) && q.At(pc.mc) in w.applyDesires.docs {
      var d := w.applyDesires.docs[q.At(pc.mc)].value;
      ClusterIdHoldsCluster(q.At(pc.mc), d.managementCluster, d.target, q.namespace, q.name);
    }
  }

  lemma Joins(s: set<Unit>, u: Unit)
    requires u !in s
    ensures |s + {u}| == |s| + 1
  {
  }

  lemma TakesOver(s: set<Unit>, gone: Unit, heir: Unit)
    requires gone in s && heir !in s
    ensures |s - {gone} + {heir}| == |s|
  {
    Joins(s - {gone}, gone);
    Joins(s - {gone}, heir);
    assert s - {gone} + {gone} == s;
  }

  /** The unit an effect moves is there to be moved. */
  ghost predicate Movable(w: World, l: Ledger, r: nat, q: Request, e: Effect) {
    match e
    case Allocate(mc) => mc in l.owners && Pending(r) !in l.owners[mc]
    case InsertApply(loc, d) =>
      IsCluster(d.target) ==>
        loc.mc in l.owners && Pending(r) in l.owners[loc.mc] && Live(loc.id) !in l.owners[loc.mc]
    case RemoveApply(loc) =>
      loc in w.applyDesires.docs ==>
        && loc.mc in l.owners && Live(loc.id) in l.owners[loc.mc]
        && Freed(loc.id, l.Deletions(loc)) !in l.owners[loc.mc]
    case Release(mc) => mc in l.owners && Freed(q.Id(), 0) in l.owners[mc]
    case _ => true
  }

  lemma OwnersAreMovable(w: World, l: Ledger, r: nat, p: Proc, e: Effect, next: Pc)
    requires l.owners.Keys == w.quotas.Keys && LiveOwned(w, l) && FreedOwned(w, l)
    requires ProcOwns(w, l, r, p) && Origin(w, p.request, p.pc, e, next)
    requires p.pc.Allocating? ==> forall mc :: mc in l.owners ==> Pending(r) !in l.owners[mc]
    ensures Movable(w, l, r, p.request, e)
  {
    match e
    case InsertApply(loc, d) =>
      if IsCluster(d.target) {
        assert Live(loc.id) in l.owners[loc.mc] <==> IsLive(w, Loc(loc.mc, loc.id));
      }
    case RemoveApply(loc) =>
      if loc in w.applyDesires.docs {
        assert Live(loc.id) in l.owners[loc.mc] <==> IsLive(w, Loc(loc.mc, loc.id));
      }
    case Release(mc) =>
      assert p.request.At(mc) in l.deletions;
    case _ =>
  }

  /** Only allocations and releases change how many owners there are. */
  lemma NoteSize(w: World, l: Ledger, r: nat, q: Request, e: Effect, next: Pc, mc: MC)
    requires Movable(w, l, r, q, e) && mc in l.owners
    ensures |Note(l, w, r, q, e, next).Owners(mc)| ==
            |l.owners[mc]| + if e == Effect.Allocate(mc) then 1 else if e == Effect.Release(mc) then -1 else 0
  {
    var before, after := l.owners[mc], Note(l, w, r, q, e, next).Owners(mc);
    match e
    case Allocate(m) =>
      if m == mc { Joins(before, Pending(r)); }
    case InsertApply(loc, d) =>
      if IsCluster(d.target) && loc.mc == mc {
        TakesOver(before, Pending(r), Live(loc.id));
      }
    case RemoveApply(loc) =>
      if loc in w.applyDesires.docs && loc.mc == mc {
        TakesOver(before, Live(loc.id), Freed(loc.id, l.Deletions(loc)));
      }
    case Release(m) =>
      if m == mc {
        assert after + {Freed(q.Id(), 0)} == before;
        Joins(after, Freed(q.Id(), 0));
      }
    case _ =>
  }

  lemma NoteKeepsKeys(w: World, l: Ledger, r: nat, q: Request, e: Effect, next: Pc)
    requires Movable(w, l, r, q, e)
    ensures Note(l, w, r, q, e, next).owners.Keys == l.owners.Keys
  {
  }

  lemma LoadMoves(w: World, q: Request, pc: Pc, e: Effect, next: Pc, mc: MC)
    requires Origin(w, q, pc, e, next) && mc in w.quotas && w.quotas[mc].load <= w.quotas[mc].capacity
    ensures Apply(w, e).quotas.Keys == w.quotas.Keys
    ensures var before, after := w.quotas[mc], Apply(w, e).quotas[mc];
            && after.capacity == before.capacity && after.load <= after.capacity
            && after.load
               == before.load + if e == Effect.Allocate(mc) then 1 else if e == Effect.Release(mc) then -1 else 0
  {
  }

  lemma KeepsCounted(w: World, l: Ledger, r: nat, p: Proc, e: Effect, next: Pc)
    requires Counted(w, l) && Movable(w, l, r, p.request, e) && Origin(w, p.request, p.pc, e, next)
    ensures Counted(Apply(w, e), Note(l, w, r, p.request, e, next))
  {
    var w', l' := Apply(w, e), Note(l, w, r, p.request, e, next);
    NoteKeepsKeys(w, l, r, p.request, e, next);
    assert w'.quotas.Keys == w.quotas.Keys;
    forall mc | mc in w'.quotas
      ensures |l'.owners[mc]| == w'.quotas[mc].load <= w'.quotas[mc].capacity
    {
      NoteSize(w, l, r, p.request, e, next, mc);
      LoadMoves(w, p.request, p.pc, e, next, mc);
      assert l'.Owners(mc) == l'.owners[mc];
    }
  }

  lemma KeepsLiveOwned(w: World, l: Ledger, r: nat, p: Proc, e: Effect, next: Pc)
    requires Counted(w, l) && LiveOwned(w, l)
    requires ProcOwns(w, l, r, p) && Origin(w, p.request, p.pc, e, next)
    ensures LiveOwned(Apply(w, e), Note(l, w, r, p.request, e, next))
  {
    var w', l' := Apply(w, e), Note(l, w, r, p.request, e, next);
    forall loc | IsLive(w', loc)
      ensures loc.mc in w'.quotas
    {
      LiveIsPlaced(w, l, r, p, e, next, loc);
    }
    forall mc, id | mc in l'.owners
      ensures Live(id) in l'.owners[mc] <==> IsLive(w', Loc(mc, id))
    {
      NoteStays(w, l, r, p, e, next, mc);
      LiveAt(w, l, r, p, e, next, mc, id);
    }
  }

  /** No call writes an ApplyDesire where there is no management cluster. */
  lemma NoteStays(w: World, l: Ledger, r: nat, p: Proc, e: Effect, next: Pc, mc: MC)
    requires l.owners.Keys == w.quotas.Keys && ProcOwns(w, l, r, p) && Origin(w, p.request, p.pc, e, next)
    requires LiveOwned(w, l) && mc in Note(l, w, r, p.request, e, next).owners
    ensures mc in l.owners
  {
  }

  lemma LiveIsPlaced(w: World, l: Ledger, r: nat, p: Proc, e: Effect, next: Pc, loc: Loc)
    requires l.owners.Keys == w.quotas.Keys && (IsLive(w, loc) ==> loc.mc in w.quotas)
    requires ProcOwns(w, l, r, p) && Origin(w, p.request, p.pc, e, next) && IsLive(Apply(w, e), loc)
    ensures loc.mc in Apply(w, e).quotas
  {
  }

  lemma LiveAt(w: World, l: Ledger, r: nat, p: Proc, e: Effect, next: Pc, mc: MC, id: DocumentID)
    requires mc in l.owners && mc in w.quotas && (Live(id) in l.owners[mc] <==> IsLive(w, Loc(mc, id)))
    requires Origin(w, p.request, p.pc, e, next)
    ensures mc in Note(l, w, r, p.request, e, next).owners
    ensures Live(id) in Note(l, w, r, p.request, e, next).owners[mc] <==> IsLive(Apply(w, e), Loc(mc, id))
  {
    var w', l' := Apply(w, e), Note(l, w, r, p.request, e, next);
    match e
    case InsertApply(loc, d) =>
      assert loc != Loc(mc, id) ==> (IsLive(w', Loc(mc, id)) <==> IsLive(w, Loc(mc, id)));
    case RemoveApply(loc) =>
      assert loc != Loc(mc, id) ==> (IsLive(w', Loc(mc, id)) <==> IsLive(w, Loc(mc, id)));
    case ReplaceApply(loc, _, _) =>
      assert l' == l;
    case _ =>
      assert w'.applyDesires == w.applyDesires;
  }

  lemma KeepsFreedOwned(w: World, l: Ledger, r: nat, p: Proc, e: Effect, next: Pc)
    requires Counted(w, l) && LiveOwned(w, l) && FreedOwned(w, l) && OneWinner(w, l)
    requires ProcOwns(w, l, r, p) && Origin(w, p.request, p.pc, e, next)
    ensures FreedOwned(Apply(w, e), Note(l, w, r, p.request, e, next))
  {
    var l' := Note(l, w, r, p.request, e, next);
    forall mc, id, k: nat | mc in l'.owners
      ensures Freed(id, k) in l'.owners[mc] <==>
                k < l'.Deletions(Loc(mc, id)) && !(k == 0 && Loc(mc, id) in l'.released)
    {
      FreedAt(w, l, r, p, e, next, mc, id, k);
    }
  }

  lemma FreedAt(w: World, l: Ledger, r: nat, p: Proc, e: Effect, next: Pc, mc: MC, id: DocumentID, k: nat)
    requires l.owners.Keys == w.quotas.Keys && LiveOwned(w, l)
    requires mc in w.quotas && Origin(w, p.request, p.pc, e, next) && ProcOwns(w, l, r, p)
    requires Loc(mc, id) in l.released ==> l.Deletions(Loc(mc, id)) >= 1
    requires Freed(id, k) in l.owners[mc] <==>
               k < l.Deletions(Loc(mc, id)) && !(k == 0 && Loc(mc, id) in l.released)
    ensures var l' := Note(l, w, r, p.request, e, next);
            mc in l'.owners &&
            (Freed(id, k) in l'.owners[mc] <==>
               k < l'.Deletions(Loc(mc, id)) && !(k == 0 && Loc(mc, id) in l'.released))
  {
  }

  lemma KeepsOneWinner(w: World, l: Ledger, r: nat, p: Proc, e: Effect, next: Pc)
    requires OneWinner(w, l)
    requires ProcOwns(w, l, r, p) && Origin(w, p.request, p.pc, e, next)
    ensures OneWinner(Apply(w, e), Note(l, w, r, p.request, e, next))
  {
  }

  lemma KeepsPendingKnown(w: World, procs: map<nat, Proc>, l: Ledger, r: nat, p: Proc, e: Effect, next: Pc)
    requires PendingKnown(procs, l) && Origin(w, p.request, p.pc, e, next)
    requires l.owners.Keys == w.quotas.Keys
    requires r in procs ==> procs[r] == p
    requires r !in procs || p.pc.CheckMapping? ==> e == Nothing
    requires !next.CheckMapping? || r !in procs
    requires next.Allocating? ==> p.pc.CheckMapping?
    ensures PendingKnown(procs[r := Proc(p.request, next)], Note(l, w, r, p.request, e, next))
  {
  }

  /** What a call leaves its own request with. */
  lemma CallerOwns(w: World, l: Ledger, r: nat, p: Proc, i: Input)
    requires WorldAddressed(w) && ProcAddressed(p)
    requires l.owners.Keys == w.quotas.Keys && LiveOwned(w, l) && OneWinner(w, l) && ProcOwns(w, l, r, p)
    requires !p.pc.Finished? && Lists(i.listing, w.quotas.Keys)
    ensures var (e, next) := Call(w, p.request, p.pc, i);
            Origin(w, p.request, p.pc, e, next) &&
            ProcOwns(Apply(w, e), Note(l, w, r, p.request, e, next), r, Proc(p.request, next))
  {
    CallOrigin(w, p.request, p.pc, i);
    if p.pc.DeleteRead? && p.request.At(p.pc.mc) in w.applyDesires.docs {
      var d := w.applyDesires.docs[p.request.At(p.pc.mc)].value;
      ClusterIdHoldsCluster(p.request.At(p.pc.mc), d.managementCluster, d.target, p.request.namespace, p.request.name);
    }
  }

  /** What it leaves every other request with. */
  lemma OthersOwn(w: World, l: Ledger, r: nat, p: Proc, e: Effect, next: Pc, r2: nat, p2: Proc)
    requires OneWinner(w, l) && ProcOwns(w, l, r, p) && ProcOwns(w, l, r2, p2) && r != r2
    requires l.owners.Keys == w.quotas.Keys
    requires Origin(w, p.request, p.pc, e, next)
    ensures ProcOwns(Apply(w, e), Note(l, w, r, p.request, e, next), r2, p2)
  {
    if e.Release? && p2.pc.Releasing? {
      var i :| 0 <= i < |l.wins| && l.wins[i] == Win(p.request.At(p.pc.mc), r);
      var j :| 0 <= j < |l.wins| && l.wins[j] == Win(p2.request.At(p2.pc.mc), r2);
      assert l.wins[i].loc != l.wins[j].loc;
    }
  }

  lemma KeepsAccounted(w: World, l: Ledger, r: nat, q: Request, pc: Pc, e: Effect, next: Pc, start: Quotas)
    requires Accounted(w, l, start) && Origin(w, q, pc, e, next)
    ensures Accounted(Apply(w, e), Note(l, w, r, q, e, next), start)
  {
  }

  ghost function Noted(l: Ledger, s: System, a: Action): Ledger
    requires Enabled(s, a)
  {
    Note(l, s.world, a.r, RequestOf(s, a), Move(s, a).0, Move(s, a).1)
  }

  lemma CallKeepsOwners(s: System, l: Ledger, start: Quotas, r: nat, e: Effect, next: Pc)
    requires Inv(s, l, start) && r in s.procs
    requires var p := s.procs[r]; Origin(s.world, p.request, p.pc, e, next)
    ensures var l' := Note(l, s.world, r, s.procs[r].request, e, next);
            && Counted(Apply(s.world, e), l') && LiveOwned(Apply(s.world, e), l') && FreedOwned(Apply(s.world, e), l')
            && OneWinner(Apply(s.world, e), l') && Accounted(Apply(s.world, e), l', start)
  {
    var w, p := s.world, s.procs[r];
    assert ProcOwns(w, l, r, p);
    OwnersAreMovable(w, l, r, p, e, next);
    KeepsCounted(w, l, r, p, e, next);
    KeepsLiveOwned(w, l, r, p, e, next);
    KeepsFreedOwned(w, l, r, p, e, next);
    KeepsOneWinner(w, l, r, p, e, next);
    KeepsAccounted(w, l, r, p.request, p.pc, e, next, start);
  }

  lemma CallKeepsProcs(s: System, l: Ledger, start: Quotas, r: nat, e: Effect, next: Pc)
    requires Inv(s, l, start) && r in s.procs
    requires var p := s.procs[r]; Origin(s.world, p.request, p.pc, e, next)
    requires s.procs[r].pc.CheckMapping? ==> e == Nothing
    requires !next.CheckMapping? && (next.Allocating? ==> s.procs[r].pc.CheckMapping?)
    requires var p := s.procs[r];
             ProcOwns(Apply(s.world, e), Note(l, s.world, r, p.request, e, next), r, Proc(p.request, next))
    ensures var p := s.procs[r];
            var l', procs' := Note(l, s.world, r, p.request, e, next), s.procs[r := Proc(p.request, next)];
            PendingKnown(procs', l') && ProcsOwn(Apply(s.world, e), procs', l')
  {
    var p := s.procs[r];
    assert ProcOwns(s.world, l, r, p);
    KeepsPendingKnown(s.world, s.procs, l, r, p, e, next);
    forall r2 | r2 in s.procs && r2 != r
      ensures ProcOwns(Apply(s.world, e), Note(l, s.world, r, p.request, e, next), r2, s.procs[r2])
    {
      OthersOwn(s.world, l, r, p, e, next, r2, s.procs[r2]);
    }
  }

  lemma CallOrder(w: World, q: Request, pc: Pc, i: Input)
    requires !pc.Finished? && forall mc :: mc in i.listing ==> mc in w.quotas
    ensures var (e, next) := Call(w, q, pc, i);
            && (pc.CheckMapping? ==> e == Nothing)
            && !next.CheckMapping? && (next.Allocating? ==> pc.CheckMapping?)
  {
  }

  lemma AdvanceKeepsInv(s: System, l: Ledger, start: Quotas, r: nat, i: Input)
    requires Inv(s, l, start) && Enabled(s, Advance(r, i))
    ensures Inv(After(s, Advance(r, i)), Noted(l, s, Advance(r, i)), start)
  {
    var p := s.procs[r];
    var (e, next) := Call(s.world, p.request, p.pc, i);
    assert ProcOwns(s.world, l, r, p);
    StepKeepsAddressing(s, Advance(r, i));
    CallOrder(s.world, p.request, p.pc, i);
    CallerOwns(s.world, l, r, p, i);
    CallKeepsOwners(s, l, start, r, e, next);
    CallKeepsProcs(s, l, start, r, e, next);
  }

  lemma ArriveKeepsInv(s: System, l: Ledger, start: Quotas, r: nat, q: Request)
    requires Inv(s, l, start) && Enabled(s, Arrive(r, q))
    ensures Noted(l, s, Arrive(r, q)) == l && Inv(After(s, Arrive(r, q)), l, start)
  {
    StepKeepsAddressing(s, Arrive(r, q));
    KeepsPendingKnown(s.world, s.procs, l, r, Proc(q, Start(q.kind)), Nothing, Start(q.kind));
  }

  ghost function LedgerAfter(l: Ledger, s: System, run: seq<Action>): Ledger
    requires ValidRun(s, run)
    decreases |run|
  {
    if run == [] then l else LedgerAfter(Noted(l, s, run[0]), After(s, run[0]), run[1..])
  }

  lemma {:induction false} RunKeepsInv(s: System, l: Ledger, start: Quotas, run: seq<Action>)
    requires Inv(s, l, start) && ValidRun(s, run)
    ensures Inv(Run(s, run), LedgerAfter(l, s, run), start)
    decreases |run|
  {
    if run != [] {
      match run[0] {
        case Arrive(r, q) => ArriveKeepsInv(s, l, start, r, q);
        case Advance(r, i) => AdvanceKeepsInv(s, l, start, r, i);
      }
      RunKeepsInv(After(s, run[0]), Noted(l, s, run[0]), start, run[1..]);
    }
  }

  // Where runs start.

  /** The clusters stored on `mc`. */
  function Clusters(w: World, mc: MC): set<Loc> {
    set loc | loc in w.applyDesires.docs && loc.mc == mc && IsCluster(w.applyDesires.docs[loc].value.target)
  }

  /** On every management cluster: clusters stored <= clusters counted <= capacity. */
  ghost predicate Safe(w: World) {
    && (forall mc :: mc in w.quotas ==> |Clusters(w, mc)| <= w.quotas[mc].load <= w.quotas[mc].capacity)
    && (forall mc :: mc !in w.quotas ==> Clusters(w, mc) == {})
  }

  ghost predicate Initial(s: System) {
    s.procs == map[] && WorldAddressed(s.world) && s.world.deleteDesires.docs == map[] && Safe(s.world)
  }

  ghost function LiveUnits(locs: set<Loc>): set<Unit> { set loc | loc in locs :: Live(loc.id) }

  ghost function SpareUnits(n: int): set<Unit> { set i | 0 <= i < n :: Spare(i) }

  ghost function InitialOwners(w: World, mc: MC): set<Unit>
    requires mc in w.quotas
  {
    LiveUnits(Clusters(w, mc)) + SpareUnits(w.quotas[mc].load - |Clusters(w, mc)|)
  }

  ghost function InitialLedger(w: World): Ledger {
    Ledger(map mc | mc in w.quotas :: InitialOwners(w, mc), map[], {}, [], map[], map[])
  }

  lemma {:induction false} LiveSize(locs: set<Loc>, mc: MC)
    requires forall loc :: loc in locs ==> loc.mc == mc
    ensures |LiveUnits(locs)| == |locs|
  {
    if locs != {} {
      var loc :| loc in locs;
      LiveSize(locs - {loc}, mc);
      assert LiveUnits(locs) == LiveUnits(locs - {loc}) + {Live(loc.id)};
      assert Live(loc.id) !in LiveUnits(locs - {loc});
    }
  }

  lemma {:induction false} SpareSize(n: nat)
    ensures |SpareUnits(n)| == n
  {
    if n > 0 {
      SpareSize(n - 1);
      assert SpareUnits(n) == SpareUnits(n - 1) + {Spare(n - 1)};
    }
  }

  lemma JoinedSize(live: set<Unit>, spare: set<Unit>)
    requires live !! spare
    ensures |live + spare| == |live| + |spare|
  {
  }

  lemma InitialSize(w: World, mc: MC)
    requires mc in w.quotas && |Clusters(w, mc)| <= w.quotas[mc].load
    ensures |InitialOwners(w, mc)| == w.quotas[mc].load
  {
    var n := w.quotas[mc].load - |Clusters(w, mc)|;
    LiveSize(Clusters(w, mc), mc);
    SpareSize(n);
    JoinedSize(LiveUnits(Clusters(w, mc)), SpareUnits(n));
  }

  lemma InitiallyCounted(w: World)
    requires Safe(w)
    ensures Counted(w, InitialLedger(w))
  {
    forall mc | mc in w.quotas {
      InitialSize(w, mc);
    }
  }

  lemma InitiallyLiveOwned(w: World)
    requires Safe(w)
    ensures LiveOwned(w, InitialLedger(w))
  {
    forall mc, id | mc in w.quotas
      ensures Live(id) in InitialOwners(w, mc) <==> IsLive(w, Loc(mc, id))
    {
      assert Live(id) in InitialOwners(w, mc) <==> Loc(mc, id) in Clusters(w, mc);
    }
    forall loc | loc in w.applyDesires.docs && IsCluster(w.applyDesires.docs[loc].value.target)
      ensures loc.mc in w.quotas
    {
      assert loc in Clusters(w, loc.mc);
    }
  }

  lemma InitialInv(s: System)
    requires Initial(s)
    ensures Inv(s, InitialLedger(s.world), s.world.quotas)
  {
    InitiallyCounted(s.world);
    InitiallyLiveOwned(s.world);
  }

  lemma InvIsSafe(s: System, l: Ledger, start: Quotas)
    requires Inv(s, l, start)
    ensures Safe(s.world)
  {
    var w := s.world;
    forall mc | mc in w.quotas
      ensures |Clusters(w, mc)| <= |l.owners[mc]|
    {
      LiveSize(Clusters(w, mc), mc);
      var live := set loc | loc in Clusters(w, mc) :: Live(loc.id);
      assert live <= l.owners[mc];
      assert |l.owners[mc] - live| == |l.owners[mc]| - |live|;
    }
  }

  // The theorems, over all runs.

  /** Capacity safety: in every reachable state every management cluster stores at most as
      many clusters as it counts, and counts at most its capacity. */
  lemma CapacitySafety(s: System, run: seq<Action>)
    requires Initial(s) && ValidRun(s, run)
    ensures Safe(Run(s, run).world)
  {
    InitialInv(s);
    RunKeepsInv(s, InitialLedger(s.world), s.world.quotas, run);
    InvIsSafe(Run(s, run), LedgerAfter(InitialLedger(s.world), s, run), s.world.quotas);
  }

  /** How often a run performs an effect. */
  ghost function Performed(s: System, run: seq<Action>, e: Effect): nat
    requires ValidRun(s, run)
    decreases |run|
  {
    if run == [] then 0
    else (if Move(s, run[0]).0 == e then 1 else 0) + Performed(After(s, run[0]), run[1..], e)
  }

  lemma NoteCounts(l: Ledger, w: World, r: nat, q: Request, e: Effect, next: Pc, mc: MC)
    ensures var l' := Note(l, w, r, q, e, next);
            && Count(l'.allocations, mc) == Count(l.allocations, mc) + (if e == Effect.Allocate(mc) then 1 else 0)
            && Count(l'.releases, mc) == Count(l.releases, mc) + (if e == Effect.Release(mc) then 1 else 0)
  {
  }

  lemma {:induction false} LedgerCounts(s: System, l: Ledger, run: seq<Action>, mc: MC)
    requires ValidRun(s, run)
    ensures var l' := LedgerAfter(l, s, run);
            && Count(l'.allocations, mc) == Count(l.allocations, mc) + Performed(s, run, Effect.Allocate(mc))
            && Count(l'.releases, mc) == Count(l.releases, mc) + Performed(s, run, Effect.Release(mc))
    decreases |run|
  {
    if run != [] {
      NoteCounts(l, s.world, run[0].r, RequestOf(s, run[0]), Move(s, run[0]).0, Move(s, run[0]).1, mc);
      LedgerCounts(After(s, run[0]), Noted(l, s, run[0]), run[1..], mc);
    }
  }

  /** Exact accounting: the counter has moved by the allocations minus the releases the run
      performed, and a request about to release finds a counter of at least one. */
  lemma ExactAccounting(s: System, run: seq<Action>)
    requires Initial(s) && ValidRun(s, run)
    ensures Run(s, run).world.quotas.Keys == s.world.quotas.Keys
    ensures forall mc :: mc in s.world.quotas ==>
              Run(s, run).world.quotas[mc] ==
              Quota(s.world.quotas[mc].capacity,
                    s.world.quotas[mc].load + Performed(s, run, Effect.Allocate(mc))
                    - Performed(s, run, Effect.Release(mc)))
    ensures forall r :: r in Run(s, run).procs && Run(s, run).procs[r].pc.Releasing? ==>
              var mc := Run(s, run).procs[r].pc.mc;
              mc in Run(s, run).world.quotas && Run(s, run).world.quotas[mc].load >= 1
  {
    var l := InitialLedger(s.world);
    InitialInv(s);
    RunKeepsInv(s, l, s.world.quotas, run);
    forall mc {
      LedgerCounts(s, l, run, mc);
    }
    forall r | r in Run(s, run).procs && Run(s, run).procs[r].pc.Releasing? {
      ReleaseIsCovered(Run(s, run), LedgerAfter(l, s, run), s.world.quotas, r);
    }
  }

  /** The actions of a run by which some request reaches Release for the document `loc`. */
  ghost function Winners(s: System, run: seq<Action>, loc: Loc): nat
    requires ValidRun(s, run)
    decreases |run|
  {
    if run == [] then 0
    else (if Move(s, run[0]).1.Releasing? && RequestOf(s, run[0]).At(Move(s, run[0]).1.mc) == loc then 1 else 0)
         + Winners(After(s, run[0]), run[1..], loc)
  }

  /** The effective deletions of the ApplyDesire at `loc` in a run. */
  ghost function Deleted(s: System, run: seq<Action>, loc: Loc): nat
    requires ValidRun(s, run)
    decreases |run|
  {
    if run == [] then 0
    else (if Move(s, run[0]).0 == RemoveApply(loc) && loc in s.world.applyDesires.docs then 1 else 0)
         + Deleted(After(s, run[0]), run[1..], loc)
  }

  ghost function WinsAt(wins: seq<Win>, loc: Loc): nat {
    if wins == [] then 0
    else WinsAt(wins[..|wins| - 1], loc) + if wins[|wins| - 1].loc == loc then 1 else 0
  }

  lemma {:induction false} WinsDistinct(wins: seq<Win>, loc: Loc)
    requires forall i, j :: 0 <= i < j < |wins| ==> wins[i].loc != wins[j].loc
    ensures WinsAt(wins, loc) <= 1
    ensures WinsAt(wins, loc) == 1 <==> exists i :: 0 <= i < |wins| && wins[i].loc == loc
  {
    if wins != [] {
      WinsDistinct(wins[..|wins| - 1], loc);
    }
  }

  lemma NoteWins(l: Ledger, w: World, r: nat, q: Request, e: Effect, next: Pc, loc: Loc)
    requires e.InsertDelete? && next.Releasing? ==> e.loc == q.At(next.mc)
    requires next.Releasing? ==> e.InsertDelete?
    ensures var l' := Note(l, w, r, q, e, next);
            && WinsAt(l'.wins, loc) == WinsAt(l.wins, loc) + (if next.Releasing? && q.At(next.mc) == loc then 1 else 0)
            && l'.Deletions(loc)
               == l.Deletions(loc) + (if e == RemoveApply(loc) && loc in w.applyDesires.docs then 1 else 0)
  {
    var l' := Note(l, w, r, q, e, next);
    if next.Releasing? {
      assert l'.wins[..|l'.wins| - 1] == l.wins;
    }
  }

  lemma {:induction false} LedgerWins(s: System, l: Ledger, run: seq<Action>, loc: Loc)
    requires ValidRun(s, run)
    ensures var l' := LedgerAfter(l, s, run);
            && WinsAt(l'.wins, loc) == WinsAt(l.wins, loc) + Winners(s, run, loc)
            && l'.Deletions(loc) == l.Deletions(loc) + Deleted(s, run, loc)
    decreases |run|
  {
    if run != [] {
      NoteWins(l, s.world, run[0].r, RequestOf(s, run[0]), Move(s, run[0]).0, Move(s, run[0]).1, loc);
      LedgerWins(After(s, run[0]), Noted(l, s, run[0]), run[1..], loc);
    }
  }

  /** Delete elects one winner: however many Deletes of a document run, at most one of them
      ever reaches Release, and by then the ApplyDesire has really been deleted. */
  lemma OneDeleteReleases(s: System, run: seq<Action>, loc: Loc)
    requires Initial(s) && ValidRun(s, run)
    ensures Winners(s, run, loc) <= 1
    ensures Winners(s, run, loc) == 1 ==> Deleted(s, run, loc) >= 1
  {
    var l := InitialLedger(s.world);
    var l' := LedgerAfter(l, s, run);
    InitialInv(s);
    RunKeepsInv(s, l, s.world.quotas, run);
    LedgerWins(s, l, run, loc);
    WinsDistinct(l'.wins, loc);
  }
}
