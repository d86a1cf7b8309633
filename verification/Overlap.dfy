/**
  Two Creates of one absent name (internal/apiserver/handlers.go): over every run in which their
  calls succeed, interleaved with each other and with any requests for other names, exactly when
  the name ends up on two management clusters.
 */
module Overlap {
  import opened Wrappers
  import opened DesireId
  import opened Desires
  import opened Placement
  import opened Protocol
  import opened PlainMap

  predicate Applied(pc: Pc) { pc.WritingRead? || pc.WritingMapping? || pc == Finished(Done) }

  predicate Watched(pc: Pc) { pc.WritingMapping? || pc == Finished(Done) }

  /** Where one Create stands, given where it was placed and where the other one stands. */
  predicate Stands(pc: Pc, placed: Option<MC>, other: Pc, otherPlaced: Option<MC>) {
    match pc
    case CheckMapping => placed == None
    case Allocating => placed == None
    case WritingNamespace(mc) => placed == Some(mc)
    case WritingApply(mc) => placed == Some(mc)
    case WritingRead(mc) => placed == Some(mc)
    case WritingMapping(mc) => placed == Some(mc)
    case Finished(Done) => placed.Some?
    case Finished(Conflict) => placed == None && other == Finished(Done)
    case Finished(NoPlacement) => placed == None
    case Finished(Refused(e)) => e == AlreadyExists && placed.Some? && placed == otherPlaced && Applied(other)
    case _ => false
  }

  /** The name is stored where, and only where, one of the two has written it. */
  ghost predicate PairInv(w: World, key: Key, pc1: Pc, placed1: Option<MC>, pc2: Pc, placed2: Option<MC>) {
    && Stands(pc1, placed1, pc2, placed2) && Stands(pc2, placed2, pc1, placed1)
    && (Applied(pc1) && Applied(pc2) ==> placed1 != placed2)
    && (key.MapId() in w.mappings <==> pc1 == Finished(Done) || pc2 == Finished(Done))
    && (forall mc :: key.At(mc) in w.applyDesires.docs <==>
          (Applied(pc1) && placed1 == Some(mc)) || (Applied(pc2) && placed2 == Some(mc)))
    && (forall mc :: key.At(mc) in w.readDesires.docs <==>
          (Watched(pc1) && placed1 == Some(mc)) || (Watched(pc2) && placed2 == Some(mc)))
  }

  function NowPlaced(w: World, pc: Pc, i: Input, placed: Option<MC>): Option<MC>
    requires forall mc :: mc in i.listing ==> mc in w.quotas
  {
    if pc.Allocating? then Choose(w.quotas, i.listing) else placed
  }

  /** A call that writes nothing under the name moves only its own program counter. */
  lemma SilentCallKeepsPair(w: World, w': World, key: Key, pc1: Pc, placed1: Option<MC>, next: Pc, placed: Option<MC>,
                            pc2: Pc, placed2: Option<MC>)
    requires PairInv(w, key, pc1, placed1, pc2, placed2) && !Applied(pc1) && !Applied(next)
    requires w'.mappings == w.mappings && w'.readDesires == w.readDesires
    requires forall mc :: key.At(mc) in w'.applyDesires.docs <==> key.At(mc) in w.applyDesires.docs
    requires Stands(next, placed, pc2, placed2) && Stands(pc2, placed2, next, placed)
    requires !next.Finished? || next.response != Done
    ensures PairInv(w', key, next, placed, pc2, placed2)
  {
  }

  lemma EarlyCallKeepsPair(w: World, q: Request, pc1: Pc, placed1: Option<MC>, i: Input, pc2: Pc, placed2: Option<MC>)
    requires PairInv(w, KeyOf(q), pc1, placed1, pc2, placed2)
    requires q.kind.Create? && !pc1.Finished? && Lists(i.listing, w.quotas.Keys) && i.outcome == Answered
    requires pc1.CheckMapping? || pc1.Allocating? || pc1.WritingNamespace?
    ensures var (e, next) := Call(w, q, pc1, i);
            Applicable(w, e) && PairInv(Apply(w, e), KeyOf(q), next, NowPlaced(w, pc1, i, placed1), pc2, placed2)
  {
    var (e, next) := Call(w, q, pc1, i);
    NamespaceAndClusterIdsDiffer(q.namespace, q.namespace, q.name);
    assert forall mc, n :: KeyOf(q).At(mc) != Loc(n, NamespaceDocumentID(q.namespace));
    SilentCallKeepsPair(w, Apply(w, e), KeyOf(q), pc1, placed1, next, NowPlaced(w, pc1, i, placed1), pc2, placed2);
  }

  lemma ApplyCallKeepsPair(w: World, q: Request, mc1: MC, i: Input, pc2: Pc, placed2: Option<MC>)
    requires PairInv(w, KeyOf(q), WritingApply(mc1), Some(mc1), pc2, placed2)
    requires q.kind.Create? && Lists(i.listing, w.quotas.Keys) && i.outcome == Answered
    ensures var (e, next) := Call(w, q, WritingApply(mc1), i);
            Applicable(w, e) && PairInv(Apply(w, e), KeyOf(q), next, Some(mc1), pc2, placed2)
  {
    assert forall mc :: KeyOf(q).At(mc) == q.At(mc);
  }

  lemma ReadCallKeepsPair(w: World, q: Request, mc1: MC, i: Input, pc2: Pc, placed2: Option<MC>)
    requires PairInv(w, KeyOf(q), WritingRead(mc1), Some(mc1), pc2, placed2)
    requires q.kind.Create? && Lists(i.listing, w.quotas.Keys) && i.outcome == Answered
    ensures var (e, next) := Call(w, q, WritingRead(mc1), i);
            Applicable(w, e) && PairInv(Apply(w, e), KeyOf(q), next, Some(mc1), pc2, placed2)
  {
    assert forall mc :: KeyOf(q).At(mc) == q.At(mc);
  }

  lemma MappingCallKeepsPair(w: World, q: Request, mc1: MC, i: Input, pc2: Pc, placed2: Option<MC>)
    requires PairInv(w, KeyOf(q), WritingMapping(mc1), Some(mc1), pc2, placed2)
    requires q.kind.Create? && Lists(i.listing, w.quotas.Keys) && i.outcome == Answered
    ensures var (e, next) := Call(w, q, WritingMapping(mc1), i);
            Applicable(w, e) && PairInv(Apply(w, e), KeyOf(q), next, Some(mc1), pc2, placed2)
  {
    assert KeyOf(q).MapId() == q.MapId();
  }

  lemma OwnCallKeepsPair(w: World, q: Request, pc1: Pc, placed1: Option<MC>, i: Input, pc2: Pc, placed2: Option<MC>)
    requires PairInv(w, KeyOf(q), pc1, placed1, pc2, placed2)
    requires q.kind.Create? && !pc1.Finished? && Lists(i.listing, w.quotas.Keys) && i.outcome == Answered
    ensures var (e, next) := Call(w, q, pc1, i);
            Applicable(w, e) && PairInv(Apply(w, e), KeyOf(q), next, NowPlaced(w, pc1, i, placed1), pc2, placed2)
  {
    match pc1
    case WritingApply(mc) => ApplyCallKeepsPair(w, q, mc, i, pc2, placed2);
    case WritingRead(mc) => ReadCallKeepsPair(w, q, mc, i, pc2, placed2);
    case WritingMapping(mc) => MappingCallKeepsPair(w, q, mc, i, pc2, placed2);
    case _ => EarlyCallKeepsPair(w, q, pc1, placed1, i, pc2, placed2);
  }

  lemma PairIsSymmetric(w: World, key: Key, pc1: Pc, placed1: Option<MC>, pc2: Pc, placed2: Option<MC>)
    requires PairInv(w, key, pc1, placed1, pc2, placed2)
    ensures PairInv(w, key, pc2, placed2, pc1, placed1)
  {
  }

  lemma OthersKeepPair(w: World, w': World, key: Key, pc1: Pc, placed1: Option<MC>, pc2: Pc, placed2: Option<MC>)
    requires PairInv(w, key, pc1, placed1, pc2, placed2) && SameAt(w, w', key)
    ensures PairInv(w', key, pc1, placed1, pc2, placed2)
  {
    forall mc
      ensures key.At(mc) in w'.applyDesires.docs <==> key.At(mc) in w.applyDesires.docs
    {
      assert Lookup(w'.applyDesires.docs, key.At(mc)) == Lookup(w.applyDesires.docs, key.At(mc));
    }
  }

  /** `r1` and `r2` are Creates of the name, and all other active requests are for other names. */
  ghost predicate OnlyTheTwo(s: System, r1: nat, r2: nat, key: Key) {
    && key.Valid() && r1 != r2 && r1 in s.procs && r2 in s.procs
    && s.procs[r1].request.kind.Create? && s.procs[r2].request.kind.Create?
    && KeyOf(s.procs[r1].request) == key && KeyOf(s.procs[r2].request) == key
    && forall r :: r in s.procs && r != r1 && r != r2 && Active(s.procs[r]) ==>
         KeyOf(s.procs[r].request).Valid() && KeyOf(s.procs[r].request) != key
  }

  /** New requests are for other names, and the two Creates' calls succeed; any other call may fail. */
  predicate Allowed(a: Action, r1: nat, r2: nat, key: Key) {
    match a
    case Arrive(_, q) => KeyOf(q).Valid() && KeyOf(q) != key
    case Advance(r, i) => r == r1 || r == r2 ==> i.outcome == Answered
  }

  predicate AllAllowed(run: seq<Action>, r1: nat, r2: nat, key: Key) {
    forall k :: 0 <= k < |run| ==> Allowed(run[k], r1, r2, key)
  }

  ghost predicate SystemInv(s: System, r1: nat, r2: nat, key: Key, placed1: Option<MC>, placed2: Option<MC>) {
    && OnlyTheTwo(s, r1, r2, key)
    && PairInv(s.world, key, s.procs[r1].pc, placed1, s.procs[r2].pc, placed2)
  }

  /** The placement of `r` after an action: its own allocation sets it. */
  ghost function PlacedAfter(s: System, a: Action, r: nat, placed: Option<MC>): Option<MC>
    requires Enabled(s, a)
  {
    if a.Advance? && a.r == r then NowPlaced(s.world, s.procs[r].pc, a.input, placed) else placed
  }

  lemma OtherStepIsElsewhere(s: System, r: nat, i: Input, r1: nat, r2: nat, key: Key)
    requires OnlyTheTwo(s, r1, r2, key) && Enabled(s, Advance(r, i)) && r != r1 && r != r2
    ensures SameAt(s.world, After(s, Advance(r, i)).world, key)
  {
    var q := s.procs[r].request;
    CallStaysWithin(s.world, q, s.procs[r].pc, i);
    OtherNamesUntouched(s.world, q, Call(s.world, q, s.procs[r].pc, i).0, key);
  }

  lemma StepKeepsPair(s: System, a: Action, r1: nat, r2: nat, key: Key, placed1: Option<MC>, placed2: Option<MC>)
    requires SystemInv(s, r1, r2, key, placed1, placed2) && Enabled(s, a) && Allowed(a, r1, r2, key)
    ensures SystemInv(After(s, a), r1, r2, key, PlacedAfter(s, a, r1, placed1), PlacedAfter(s, a, r2, placed2))
  {
    var pc1, pc2 := s.procs[r1].pc, s.procs[r2].pc;
    match a
    case Arrive(_, _) =>
    case Advance(r, i) =>
      var q := s.procs[r].request;
      if r == r1 {
        OwnCallKeepsPair(s.world, q, pc1, placed1, i, pc2, placed2);
      } else if r == r2 {
        PairIsSymmetric(s.world, key, pc1, placed1, pc2, placed2);
        OwnCallKeepsPair(s.world, q, pc2, placed2, i, pc1, placed1);
        var (e, next) := Call(s.world, q, pc2, i);
        PairIsSymmetric(Apply(s.world, e), key, next, NowPlaced(s.world, pc2, i, placed2), pc1, placed1);
      } else {
        OtherStepIsElsewhere(s, r, i, r1, r2, key);
        OthersKeepPair(s.world, After(s, a).world, key, pc1, placed1, pc2, placed2);
      }
  }

  // The condition, in terms of the run's steps.

  /** Where the allocation call of `r` in the run placed it, if it made one and found room. */
  ghost function PlacedBy(s: System, run: seq<Action>, r: nat): Option<MC>
    requires ValidRun(s, run)
    decreases |run|
  {
    if run == [] then None
    else if run[0].Advance? && run[0].r == r && s.procs[r].pc.Allocating? then
      Choose(s.world.quotas, run[0].input.listing)
    else PlacedBy(After(s, run[0]), run[1..], r)
  }

  /** `r` made its mapping check in the run, before `other` had written its mapping. */
  ghost predicate CheckedFirst(s: System, run: seq<Action>, r: nat, other: nat)
    requires ValidRun(s, run) && other in s.procs
    decreases |run|
  {
    if run == [] then false
    else if run[0].Advance? && run[0].r == r && s.procs[r].pc.CheckMapping? then s.procs[other].pc != Finished(Done)
    else CheckedFirst(After(s, run[0]), run[1..], r, other)
  }

  predicate Before(pc: Pc) { pc.CheckMapping? || pc.Allocating? }

  /** What the run makes of one of the two, by the time it is finished. */
  ghost predicate EndsAs(s: System, run: seq<Action>, r: nat, other: nat, placed: Option<MC>, end: Option<MC>)
    requires ValidRun(s, run) && r in s.procs && other in s.procs && r in Run(s, run).procs
  {
    && end == (if Before(s.procs[r].pc) then PlacedBy(s, run, r) else placed)
    && (Run(s, run).procs[r].pc.Finished? ==>
          (Run(s, run).procs[r].pc == Finished(Conflict) <==>
             if s.procs[r].pc.CheckMapping? then !CheckedFirst(s, run, r, other)
             else s.procs[r].pc == Finished(Conflict)))
  }

  lemma {:induction false} FinishedIsNotPlaced(s: System, run: seq<Action>, r: nat)
    requires ValidRun(s, run) && r in s.procs && s.procs[r].pc.Finished?
    ensures PlacedBy(s, run, r) == None
    decreases |run|
  {
    if run != [] {
      FinishedIsNotPlaced(After(s, run[0]), run[1..], r);
    }
  }

  /** One step's part in `EndsAs`. */
  lemma EndsAsStep(s: System, run: seq<Action>, r: nat, other: nat, placed: Option<MC>, end: Option<MC>, key: Key,
                   otherPlaced: Option<MC>)
    requires ValidRun(s, run) && run != [] && r in s.procs && other in s.procs && r != other
    requires s.procs[r].request.kind.Create? && KeyOf(s.procs[r].request) == key && Allowed(run[0], r, other, key)
    requires PairInv(s.world, key, s.procs[r].pc, placed, s.procs[other].pc, otherPlaced)
    requires r in Run(s, run).procs
    requires EndsAs(After(s, run[0]), run[1..], r, other, PlacedAfter(s, run[0], r, placed), end)
    ensures EndsAs(s, run, r, other, placed, end)
  {
    var a := run[0];
    if a.Advance? && a.r == r {
      assert key.MapId() == s.procs[r].request.MapId();
      if After(s, a).procs[r].pc.Finished? {
        FinishedIsNotPlaced(After(s, a), run[1..], r);
      }
    }
  }

  lemma {:induction false} RunKeepsPair(s: System, run: seq<Action>, r1: nat, r2: nat, key: Key,
                                        placed1: Option<MC>, placed2: Option<MC>)
    returns (end1: Option<MC>, end2: Option<MC>)
    requires SystemInv(s, r1, r2, key, placed1, placed2) && ValidRun(s, run) && AllAllowed(run, r1, r2, key)
    ensures SystemInv(Run(s, run), r1, r2, key, end1, end2)
    ensures EndsAs(s, run, r1, r2, placed1, end1) && EndsAs(s, run, r2, r1, placed2, end2)
    decreases |run|
  {
    if run == [] {
      end1, end2 := placed1, placed2;
    } else {
      var a := run[0];
      assert Allowed(a, r1, r2, key);
      StepKeepsPair(s, a, r1, r2, key, placed1, placed2);
      end1, end2 := RunKeepsPair(After(s, a), run[1..], r1, r2, key, PlacedAfter(s, a, r1, placed1),
                                 PlacedAfter(s, a, r2, placed2));
      EndsAsStep(s, run, r1, r2, placed1, end1, key, placed2);
      PairIsSymmetric(s.world, key, s.procs[r1].pc, placed1, s.procs[r2].pc, placed2);
      EndsAsStep(s, run, r2, r1, placed2, end2, key, placed1);
    }
  }

  // Main result.

  /** The name has its ApplyDesire and its ReadDesire on two management clusters. */
  ghost predicate OnTwo(w: World, key: Key) {
    exists mc1, mc2 :: mc1 != mc2 && key.At(mc1) in w.applyDesires.docs && key.At(mc2) in w.applyDesires.docs
                       && key.At(mc1) in w.readDesires.docs && key.At(mc2) in w.readDesires.docs
  }

  /** The name ends on two management clusters if and only if both Creates made their mapping
      check before the other wrote its mapping and they were placed differently; and if and
      only if both were answered with success. */
  lemma CreatesDivergeIff(s: System, run: seq<Action>, r1: nat, r2: nat, key: Key)
    requires OnlyTheTwo(s, r1, r2, key) && s.procs[r1].pc.CheckMapping? && s.procs[r2].pc.CheckMapping?
    requires HasShape(s.world, key, Absent) && ValidRun(s, run) && AllAllowed(run, r1, r2, key)
    requires forall r :: r == r1 || r == r2 ==> r in Run(s, run).procs && Run(s, run).procs[r].pc.Finished?
    ensures OnTwo(Run(s, run).world, key) <==>
              && CheckedFirst(s, run, r1, r2) && CheckedFirst(s, run, r2, r1)
              && PlacedBy(s, run, r1).Some? && PlacedBy(s, run, r2).Some?
              && PlacedBy(s, run, r1) != PlacedBy(s, run, r2)
    ensures OnTwo(Run(s, run).world, key) <==>
              Run(s, run).procs[r1].pc == Finished(Done) && Run(s, run).procs[r2].pc == Finished(Done)
  {
    var end1, end2 := RunKeepsPair(s, run, r1, r2, key, None, None);
    var w, pc1, pc2 := Run(s, run).world, Run(s, run).procs[r1].pc, Run(s, run).procs[r2].pc;
    assert PairInv(w, key, pc1, end1, pc2, end2);
    if pc1 == Finished(Done) && pc2 == Finished(Done) {
      var mc1, mc2 := end1.value, end2.value;
      assert key.At(mc1) in w.applyDesires.docs && key.At(mc2) in w.applyDesires.docs;
      assert key.At(mc1) in w.readDesires.docs && key.At(mc2) in w.readDesires.docs;
    }
  }
}
