/**
  Optimistic concurrency of Update (internal/apiserver/handlers.go, Update, over
  internal/desires/crud.go, Replace and snapshotToDesire): no update is lost.

  Every ApplyDesire gets a history of what happened to it. An update is recorded with the
  version the request had read, possibly long before it wrote.
 */
module Versions {
  import opened Wrappers
  import opened Desires
  import opened Placement
  import opened Protocol

  type Version = Document<ApplyDesire>

  datatype Event = Created(now: Version) | Replaced(basis: Version, now: Version) | Deleted

  type History = map<Loc, seq<Event>>

  ghost function Events(h: History, loc: Loc): seq<Event> { if loc in h then h[loc] else [] }

  ghost function Record(h: History, w: World, e: Effect): History
    requires Applicable(w, e)
  {
    match e
    case InsertApply(loc, _) => h[loc := Events(h, loc) + [Created(Apply(w, e).applyDesires.docs[loc])]]
    case ReplaceApply(loc, basis, _) =>
      h[loc := Events(h, loc) + [Replaced(basis, Apply(w, e).applyDesires.docs[loc])]]
    case RemoveApply(loc) =>
      if loc in w.applyDesires.docs then h[loc := Events(h, loc) + [Deleted]] else h
    case _ => h
  }

  /** Event `i` fits the one before it. An update is based on exactly the version it
      replaces: same value, same times; it changes nothing but the applied object, keeps the
      incarnation's creation time, and is never based on a deleted document. */
  ghost predicate Link(events: seq<Event>, i: nat)
    requires i < |events|
  {
    match events[i]
    case Created(_) => i == 0 || events[i - 1].Deleted?
    case Deleted => i > 0 && !events[i - 1].Deleted?
    case Replaced(basis, now) =>
      && i > 0 && !events[i - 1].Deleted? && events[i - 1].now == basis
      && basis.updateTime < now.updateTime && basis.createTime == now.createTime
      && now.value == basis.value.(content := now.value.content)
  }

  ghost predicate Chain(events: seq<Event>) {
    forall i: nat :: i < |events| ==> Link(events, i)
  }

  /** The history of `loc` ends in its present version. */
  ghost predicate Current(t: Table<ApplyDesire>, loc: Loc, events: seq<Event>) {
    if loc in t.docs then
      events != [] && !events[|events| - 1].Deleted? && events[|events| - 1].now == t.docs[loc]
    else
      events == [] || events[|events| - 1].Deleted?
  }

  ghost predicate HistoryInv(w: World, h: History) {
    && (forall loc :: Chain(Events(h, loc)))
    && (forall loc :: Current(w.applyDesires, loc, Events(h, loc)))
    && (forall loc :: loc in w.applyDesires.docs ==> w.applyDesires.docs[loc].updateTime <= w.applyDesires.clock)
  }

  /** A version once read is recognised by its update time alone. */
  ghost predicate ReadStill(w: World, p: Proc) {
    p.pc.Replacing? ==>
      var existing, loc := p.pc.existing, p.request.At(p.pc.mc);
      && existing.updateTime <= w.applyDesires.clock
      && (loc in w.applyDesires.docs && w.applyDesires.docs[loc].updateTime == existing.updateTime ==>
            w.applyDesires.docs[loc] == existing)
  }

  ghost predicate ReadersInv(w: World, procs: map<nat, Proc>) {
    forall r :: r in procs ==> ReadStill(w, procs[r])
  }

  ghost predicate Consistent(w: World, e: Effect) {
    && Applicable(w, e)
    && match e
       case InsertApply(loc, _) => loc !in w.applyDesires.docs
       case ReplaceApply(loc, basis, d) =>
         w.applyDesires.docs[loc] == basis && d == basis.value.(content := d.content)
       case _ => true
  }

  lemma CallIsConsistent(w: World, q: Request, pc: Pc, i: Input)
    requires ReadStill(w, Proc(q, pc)) && !pc.Finished? && Lists(i.listing, w.quotas.Keys)
    requires forall loc :: loc in w.applyDesires.docs ==> w.applyDesires.docs[loc].updateTime <= w.applyDesires.clock
    ensures var (e, next) := Call(w, q, pc, i);
            Consistent(w, e) && ReadStill(Apply(w, e), Proc(q, next))
  {
  }

  lemma KeepsReaders(w: World, procs: map<nat, Proc>, e: Effect)
    requires ReadersInv(w, procs) && Consistent(w, e)
    ensures ReadersInv(Apply(w, e), procs)
  {
  }

  lemma AppendLink(events: seq<Event>, e: Event)
    requires Chain(events) && Link(events + [e], |events|)
    ensures Chain(events + [e])
  {
    forall i: nat | i < |events|
      ensures Link(events + [e], i)
    {
      assert Link(events, i);
    }
  }

  lemma KeepsHistory(w: World, h: History, e: Effect)
    requires HistoryInv(w, h) && Consistent(w, e)
    ensures HistoryInv(Apply(w, e), Record(h, w, e))
  {
    var w', h' := Apply(w, e), Record(h, w, e);
    forall loc
      ensures Chain(Events(h', loc)) && Current(w'.applyDesires, loc, Events(h', loc))
    {
      assert Chain(Events(h, loc)) && Current(w.applyDesires, loc, Events(h, loc));
      if Events(h', loc) != Events(h, loc) {
        AppendLink(Events(h, loc), Events(h', loc)[|Events(h, loc)|]);
      }
    }
  }

  ghost function HistoryAfter(h: History, s: System, run: seq<Action>): History
    requires ValidRun(s, run)
    decreases |run|
  {
    if run == [] then h else HistoryAfter(Record(h, s.world, Move(s, run[0]).0), After(s, run[0]), run[1..])
  }

  lemma StepKeepsHistory(s: System, h: History, a: Action)
    requires HistoryInv(s.world, h) && ReadersInv(s.world, s.procs) && Enabled(s, a)
    ensures HistoryInv(After(s, a).world, Record(h, s.world, Move(s, a).0))
    ensures ReadersInv(After(s, a).world, After(s, a).procs)
  {
    var e := Move(s, a).0;
    if a.Advance? {
      assert ReadStill(s.world, s.procs[a.r]);
      CallIsConsistent(s.world, s.procs[a.r].request, s.procs[a.r].pc, a.input);
    }
    KeepsReaders(s.world, s.procs, e);
    KeepsHistory(s.world, h, e);
  }

  lemma {:induction false} RunKeepsHistory(s: System, h: History, run: seq<Action>)
    requires HistoryInv(s.world, h) && ReadersInv(s.world, s.procs) && ValidRun(s, run)
    ensures HistoryInv(Run(s, run).world, HistoryAfter(h, s, run))
    ensures ReadersInv(Run(s, run).world, Run(s, run).procs)
    decreases |run|
  {
    if run != [] {
      StepKeepsHistory(s, h, run[0]);
      RunKeepsHistory(After(s, run[0]), Record(h, s.world, Move(s, run[0]).0), run[1..]);
    }
  }

  ghost function InitialHistory(w: World): History {
    map loc | loc in w.applyDesires.docs :: [Created(w.applyDesires.docs[loc])]
  }

  /** No lost update: in every run the history of every ApplyDesire is a chain ending in its
      present version. So every successful Update replaced exactly the version it had read,
      and none revived a deleted document or overwrote one recreated since. */
  lemma NoLostUpdate(s: System, run: seq<Action>, loc: Loc)
    requires s.procs == map[] && ValidRun(s, run)
    requires forall l :: l in s.world.applyDesires.docs ==>
               s.world.applyDesires.docs[l].updateTime <= s.world.applyDesires.clock
    ensures var events := Events(HistoryAfter(InitialHistory(s.world), s, run), loc);
            Chain(events) && Current(Run(s, run).world.applyDesires, loc, events)
  {
    var h := InitialHistory(s.world);
    assert HistoryInv(s.world, h);
    RunKeepsHistory(s, h, run);
  }
}
