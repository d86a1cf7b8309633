/** One request run alone, call after call, against a script of surroundings. */
module Solo {
  import opened Wrappers
  import opened Desires
  import opened Placement
  import opened Protocol

  /** An upper bound on the calls a request makes from `pc`. */
  function Calls(pc: Pc): nat {
    match pc
    case CheckMapping => 6
    case Allocating => 5
    case WritingNamespace(_) => 4
    case WritingApply(_) => 3
    case WritingRead(_) => 2
    case WritingMapping(_) => 1
    case UpdateLookup => 3
    case UpdateRead(_) => 2
    case Replacing(_, _) => 1
    case DeleteLookup => 7
    case DeleteRead(_) => 6
    case RemovingApply(_, _) => 5
    case RemovingRead(_, _) => 4
    case WritingDelete(_, _) => 3
    case Releasing(_) => 2
    case Unmapping(_) => 1
    case GetLookup => 4
    case GetStatusRead(_) => 3
    case GetStatusApply(_, _) => 2
    case GetSpec(_) => 1
    case Finished(_) => 0
  }

  ghost predicate Scripted(script: seq<Input>, mcs: set<MC>) {
    forall k :: 0 <= k < |script| ==> Lists(script[k].listing, mcs)
  }

  lemma CallApplies(w: World, q: Request, pc: Pc, i: Input)
    requires !pc.Finished? && Lists(i.listing, w.quotas.Keys)
    ensures Applicable(w, Call(w, q, pc, i).0)
  {
  }

  lemma CallProgresses(w: World, q: Request, pc: Pc, i: Input)
    requires !pc.Finished? && Lists(i.listing, w.quotas.Keys)
    ensures Calls(Call(w, q, pc, i).1) < Calls(pc)
  {
  }

  lemma QuotasStay(w: World, e: Effect)
    requires Applicable(w, e)
    ensures Apply(w, e).quotas.Keys == w.quotas.Keys
  {
  }

  /** The world and the response after the request has run to its end. */
  ghost function RunAlone(w: World, q: Request, pc: Pc, script: seq<Input>): (World, Response)
    requires Calls(pc) <= |script| && Scripted(script, w.quotas.Keys)
    decreases Calls(pc)
  {
    if pc.Finished? then (w, pc.response)
    else
      CallProgresses(w, q, pc, script[0]);
      CallApplies(w, q, pc, script[0]);
      var (e, next) := Call(w, q, pc, script[0]);
      QuotasStay(w, e);
      RunAlone(Apply(w, e), q, next, script[1..])
  }

  /** One call of a lone run. */
  lemma OneCall(w: World, q: Request, pc: Pc, script: seq<Input>, e: Effect, next: Pc)
    requires !pc.Finished? && Calls(pc) <= |script| && Scripted(script, w.quotas.Keys)
    requires Call(w, q, pc, script[0]) == (e, next)
    ensures Applicable(w, e) && Calls(next) <= |script| - 1 && Scripted(script[1..], Apply(w, e).quotas.Keys)
    ensures RunAlone(w, q, pc, script) == RunAlone(Apply(w, e), q, next, script[1..])
  {
    CallProgresses(w, q, pc, script[0]);
    CallApplies(w, q, pc, script[0]);
    QuotasStay(w, e);
  }

  /** A call after which the request is over and which writes nothing. */
  lemma LastCall(w: World, q: Request, pc: Pc, script: seq<Input>)
    requires pc.GetSpec? && Calls(pc) <= |script| && Scripted(script, w.quotas.Keys)
    ensures var (e, next) := Call(w, q, pc, script[0]);
            e.Nothing? && next.Finished? && RunAlone(w, q, pc, script) == (w, next.response)
  {
    var (e, next) := Call(w, q, pc, script[0]);
    OneCall(w, q, pc, script, e, next);
  }

  ghost predicate NoFaults(script: seq<Input>) {
    forall k :: 0 <= k < |script| ==> script[k].outcome == Answered && script[k].live == None
  }

  lemma Tail(script: seq<Input>, k: nat, mcs: set<MC>)
    requires k <= |script| && Scripted(script, mcs) && NoFaults(script)
    ensures Scripted(script[k..], mcs) && NoFaults(script[k..])
  {
  }

  // A request run alone is a run of the system, in which no other request moves.

  ghost function AloneActions(w: World, r: nat, q: Request, pc: Pc, script: seq<Input>): seq<Action>
    requires Calls(pc) <= |script| && Scripted(script, w.quotas.Keys)
    decreases Calls(pc)
  {
    if pc.Finished? then []
    else
      CallProgresses(w, q, pc, script[0]);
      CallApplies(w, q, pc, script[0]);
      var (e, next) := Call(w, q, pc, script[0]);
      QuotasStay(w, e);
      [Advance(r, script[0])] + AloneActions(Apply(w, e), r, q, next, script[1..])
  }

  /** So what is proved of all runs holds of the handlers called one after another. */
  lemma {:induction false} AloneIsARun(s: System, r: nat, script: seq<Input>)
    requires r in s.procs && Calls(s.procs[r].pc) <= |script| && Scripted(script, s.world.quotas.Keys)
    ensures var (q, pc) := (s.procs[r].request, s.procs[r].pc);
            var (w, response) := RunAlone(s.world, q, pc, script);
            var run := AloneActions(s.world, r, q, pc, script);
            ValidRun(s, run) && Run(s, run) == System(w, s.procs[r := Proc(q, Finished(response))])
    decreases Calls(s.procs[r].pc)
  {
    var q, pc := s.procs[r].request, s.procs[r].pc;
    if pc.Finished? {
      assert s.procs[r := s.procs[r]] == s.procs;
    } else {
      var a := Advance(r, script[0]);
      CallProgresses(s.world, q, pc, script[0]);
      CallApplies(s.world, q, pc, script[0]);
      var (e, next) := Call(s.world, q, pc, script[0]);
      QuotasStay(s.world, e);
      var s' := System(Apply(s.world, e), s.procs[r := Proc(q, next)]);
      assert Enabled(s, a) && After(s, a) == s';
      AloneIsARun(s', r, script[1..]);
      var rest := AloneActions(s'.world, r, q, next, script[1..]);
      assert ([a] + rest)[1..] == rest;
      var response := RunAlone(s.world, q, pc, script).1;
      assert s'.procs[r := Proc(q, Finished(response))] == s.procs[r := Proc(q, Finished(response))];
    }
  }

  lemma AloneFrom(w: World, procs: map<nat, Proc>, r: nat, q: Request, pc: Pc, script: seq<Input>)
    requires r in procs && procs[r] == Proc(q, pc) && Calls(pc) <= |script| && Scripted(script, w.quotas.Keys)
    ensures var (w', response) := RunAlone(w, q, pc, script);
            var run := AloneActions(w, r, q, pc, script);
            && ValidRun(System(w, procs), run)
            && Run(System(w, procs), run) == System(w', procs[r := Proc(q, Finished(response))])
  {
    AloneIsARun(System(w, procs), r, script);
  }

  /** A request that arrives and is served while no other moves. */
  ghost function Serve(w: World, r: nat, q: Request, script: seq<Input>): seq<Action>
    requires Calls(Start(q.kind)) <= |script| && Scripted(script, w.quotas.Keys)
  {
    [Arrive(r, q)] + AloneActions(w, r, q, Start(q.kind), script)
  }

  lemma RunCons(s: System, a: Action, rest: seq<Action>)
    requires Enabled(s, a) && ValidRun(After(s, a), rest)
    ensures ValidRun(s, [a] + rest) && Run(s, [a] + rest) == Run(After(s, a), rest)
  {
    assert ([a] + rest)[1..] == rest;
  }

  lemma ArriveThen(s: System, r: nat, q: Request, rest: seq<Action>, w: World, response: Response)
    requires r !in s.procs && ValidRun(System(s.world, s.procs[r := Proc(q, Start(q.kind))]), rest)
    requires Run(System(s.world, s.procs[r := Proc(q, Start(q.kind))]), rest)
          == System(w, s.procs[r := Proc(q, Start(q.kind))][r := Proc(q, Finished(response))])
    ensures ValidRun(s, [Arrive(r, q)] + rest)
    ensures Run(s, [Arrive(r, q)] + rest) == System(w, s.procs[r := Proc(q, Finished(response))])
  {
    RunCons(s, Arrive(r, q), rest);
    assert s.procs[r := Proc(q, Start(q.kind))][r := Proc(q, Finished(response))]
        == s.procs[r := Proc(q, Finished(response))];
  }

  lemma ServeIsARun(s: System, r: nat, q: Request, script: seq<Input>)
    requires r !in s.procs && Calls(Start(q.kind)) <= |script| && Scripted(script, s.world.quotas.Keys)
    ensures var (w, response) := RunAlone(s.world, q, Start(q.kind), script);
            var run := Serve(s.world, r, q, script);
            ValidRun(s, run) && Run(s, run) == System(w, s.procs[r := Proc(q, Finished(response))])
  {
    AloneFrom(s.world, s.procs[r := Proc(q, Start(q.kind))], r, q, Start(q.kind), script);
    var end := RunAlone(s.world, q, Start(q.kind), script);
    ArriveThen(s, r, q, AloneActions(s.world, r, q, Start(q.kind), script), end.0, end.1);
  }
}
