/**
  A stranded name stays stranded (internal/apiserver/handlers.go): once it is mapped with nothing
  stored and no request for it is under way, no run brings it back -- whatever requests arrive,
  for it or for other names, and whatever calls fail.
 */
module Stranding {
  import opened Desires
  import opened Placement
  import opened Protocol
  import opened PlainMap
  import opened Limits

  /** How far a request for the name gets: it reads, and is refused. A Get may still relay what
      the agent reports. */
  predicate Stuck(p: Proc, mc: MC) {
    match p.pc
    case CheckMapping => p.request.kind.Create?
    case UpdateLookup => p.request.kind.Update?
    case UpdateRead(m) => p.request.kind.Update? && m == mc
    case DeleteLookup => p.request.kind.Delete?
    case DeleteRead(m) => p.request.kind.Delete? && m == mc
    case GetLookup => p.request.kind.Get?
    case GetStatusRead(m) => p.request.kind.Get? && m == mc
    case GetStatusApply(m, _) => p.request.kind.Get? && m == mc
    case GetSpec(m) => p.request.kind.Get? && m == mc
    case Finished(response) => Hopeless(p.request, response)
    case _ => false
  }

  /** The answers a stranded name gives. */
  predicate Hopeless(q: Request, response: Response) {
    match response
    case Conflict => q.kind.Create?
    case Refused(e) => e == Unavailable || (e == NotFound && !q.kind.Create?)
    case Content(_) => q.kind.Get?
    case _ => false
  }

  /** `old` are the requests from before, all finished if they are for the name. */
  ghost predicate StrandedInv(s: System, key: Key, mc: MC, old_: set<nat>) {
    && key.Valid() && HasShape(s.world, key, Stranded(mc))
    && (forall r :: r in s.procs && Active(s.procs[r]) ==> KeyOf(s.procs[r].request).Valid())
    && (forall r :: r in s.procs && KeyOf(s.procs[r].request) == key ==>
          if r in old_ then s.procs[r].pc.Finished? else Stuck(s.procs[r], mc))
  }

  lemma OwnCallIsStuck(w: World, q: Request, pc: Pc, mc: MC, i: Input)
    requires HasShape(w, KeyOf(q), Stranded(mc)) && Stuck(Proc(q, pc), mc) && !pc.Finished?
    requires Lists(i.listing, w.quotas.Keys)
    ensures var (e, next) := Call(w, q, pc, i);
            e == Nothing && Stuck(Proc(q, next), mc)
  {
    assert KeyOf(q).At(mc) == q.At(mc) && KeyOf(q).MapId() == q.MapId();
  }

  predicate ValidArrivals(run: seq<Action>) {
    forall k :: 0 <= k < |run| && run[k].Arrive? ==> KeyOf(run[k].request).Valid()
  }

  lemma AdvanceKeepsShape(s: System, r: nat, i: Input, key: Key, mc: MC, old_: set<nat>)
    requires StrandedInv(s, key, mc, old_) && Enabled(s, Advance(r, i))
    ensures HasShape(After(s, Advance(r, i)).world, key, Stranded(mc))
    ensures KeyOf(s.procs[r].request) == key ==> Stuck(After(s, Advance(r, i)).procs[r], mc)
  {
    var q, pc := s.procs[r].request, s.procs[r].pc;
    var e := Call(s.world, q, pc, i).0;
    if KeyOf(q) == key {
      OwnCallIsStuck(s.world, q, pc, mc, i);
    } else {
      CallStaysWithin(s.world, q, pc, i);
      OtherNamesUntouched(s.world, q, e, key);
      ShapeFrame(s.world, Apply(s.world, e), key, Stranded(mc));
    }
  }

  lemma StepKeepsStranded(s: System, a: Action, key: Key, mc: MC, old_: set<nat>)
    requires StrandedInv(s, key, mc, old_) && Enabled(s, a) && old_ <= s.procs.Keys
    requires a.Arrive? ==> KeyOf(a.request).Valid()
    ensures StrandedInv(After(s, a), key, mc, old_)
  {
    if a.Advance? {
      AdvanceKeepsShape(s, a.r, a.input, key, mc, old_);
    }
  }

  lemma {:induction false} RunKeepsStranded(s: System, run: seq<Action>, key: Key, mc: MC, old_: set<nat>)
    requires StrandedInv(s, key, mc, old_) && ValidRun(s, run) && old_ <= s.procs.Keys && ValidArrivals(run)
    ensures StrandedInv(Run(s, run), key, mc, old_) && s.procs.Keys <= Run(s, run).procs.Keys
    decreases |run|
  {
    if run != [] {
      StepKeepsStranded(s, run[0], key, mc, old_);
      RunKeepsStranded(After(s, run[0]), run[1..], key, mc, old_);
    }
  }

  /** From a state where a name is stranded and no request for it is under way, every later state
      has it stranded still, and every later request for it that is finished was answered with
      Conflict (a Create), NotFound or Unavailable, or (a Get) with what the agent reports. */
  lemma StrandedForever(s: System, run: seq<Action>, key: Key, mc: MC)
    requires key.Valid() && HasShape(s.world, key, Stranded(mc)) && Idle(s, key) && ValidRun(s, run)
              && ValidArrivals(run)
    requires forall r :: r in s.procs && Active(s.procs[r]) ==> KeyOf(s.procs[r].request).Valid()
    ensures HasShape(Run(s, run).world, key, Stranded(mc))
    ensures forall r :: r in Run(s, run).procs && r !in s.procs ==>
              var p := Run(s, run).procs[r];
              KeyOf(p.request) == key && p.pc.Finished? ==> Hopeless(p.request, p.pc.response)
  {
    RunKeepsStranded(s, run, key, mc, s.procs.Keys);
  }
}
