/**
  Coherence of resolved triples (internal/controller/versionstream_controller.go): over all
  runs of successes, failures and write conflicts, a stream's image, version and channel come
  from one resolution, are never lost again, and reach HostedClusters only together.
 */
module Triples {
  import opened Wrappers
  import opened HostedClusters
  import opened Controllers
  import Cincinnati

  /** Every version of every stream is older than the clock and one of a kind; what is stored,
      cached or being worked on is one of them. */
  ghost predicate StreamsInv(s: State) {
    && (forall n, x :: (n, x) in s.pastStreams ==> x.version < s.clock)
    && (forall n, x, y :: (n, x) in s.pastStreams && (n, y) in s.pastStreams && x.version == y.version ==> x == y)
    && (forall n :: n in s.streams ==> (n, s.streams[n]) in s.pastStreams)
    && (forall n :: n in s.seenStreams ==> (n, s.seenStreams[n]) in s.pastStreams)
    && (forall id :: id in s.resolvers ==> (s.resolvers[id].name, s.resolvers[id].copy) in s.pastStreams)
  }

  /** The image and channel of a HostedCluster, together in some stream's status. */
  ghost predicate KnownPair(hc: HostedCluster, past: set<(string, Stream)>) {
    exists n, x :: (n, x) in past && x.status.image == hc.spec.releaseImage != "" && x.status.channel == hc.spec.channel
  }

  ghost predicate HostedInv(s: State) {
    && (forall k :: k in s.hosted ==> KnownPair(s.hosted[k].hc, s.pastStreams))
    && (forall k :: k in s.workers ==> PcKnown(s.workers[k], s.pastStreams))
  }

  ghost predicate PcKnown(pc: Pc, past: set<(string, Stream)>) {
    match pc
    case Built(_, hc) => KnownPair(hc, past)
    case Creating(_, hc) => KnownPair(hc, past)
    case Updating(_, hc, _) => KnownPair(hc, past)
    case _ => true
  }

  lemma KnownStays(pc: Pc, hc: HostedCluster, past: set<(string, Stream)>, more: set<(string, Stream)>)
    requires past <= more
    ensures KnownPair(hc, past) ==> KnownPair(hc, more)
    ensures PcKnown(pc, past) ==> PcKnown(pc, more)
  {
  }

  // Streams.

  lemma SameStreams(s: State, next: State)
    requires StreamsInv(s) && next.clock >= s.clock
    requires next.streams == s.streams && next.seenStreams == s.seenStreams
    requires next.resolvers == s.resolvers && next.pastStreams == s.pastStreams
    ensures StreamsInv(next)
  {
  }

  lemma PutStreamKeepsStreams(s: State, n: string, spec: StreamSpec, status: StreamStatus)
    requires StreamsInv(s)
    ensures StreamsInv(PutStream(s, n, spec, status))
  {
  }

  lemma ResolveKeepsStreams(s: State, id: nat, service: Cincinnati.Service, outcome: Outcome)
    requires StreamsInv(s) && id in s.resolvers
    ensures StreamsInv(Resolve(s, id, service, outcome))
  {
    var n, copy := s.resolvers[id].name, s.resolvers[id].copy;
    var done := s.(resolvers := s.resolvers - {id});
    assert StreamsInv(done);
    if n in s.streams {
      PutStreamKeepsStreams(done, n, s.streams[n].spec, Resolved(copy, service));
    }
  }

  ghost predicate LeavesStreams(s: State, next: State) {
    && next.streams == s.streams && next.seenStreams == s.seenStreams
    && next.resolvers == s.resolvers && next.pastStreams == s.pastStreams && next.clock >= s.clock
  }

  lemma WorkerLeavesStreams(s: State, k: Key, pc: Pc)
    ensures LeavesStreams(s, Goto(s, k, pc)) && LeavesStreams(s, Retry(s, k)) && LeavesStreams(s, Finish(s, k))
  {
  }

  lemma WrittenLeavesStreams(s: State, k: Key, m: Mhc, hc: HostedCluster, lost: bool)
    ensures LeavesStreams(s, Written(s, k, m, hc, lost))
  {
    WorkerLeavesStreams(PutHosted(s, k, hc), k, Reporting(m));
  }

  lemma ReportedLeavesStreams(s: State, k: Key, m: Mhc, lost: bool)
    ensures LeavesStreams(s, Reported(s, k, m, lost))
  {
    WorkerLeavesStreams(s, k, Reading);
    if k in s.mhcs {
      WorkerLeavesStreams(PutMhc(s, k, s.mhcs[k].spec), k, Reading);
    }
  }

  /** A reconciliation never touches a stream. */
  lemma AdvanceLeavesStreams(s: State, k: Key, outcome: Outcome)
    requires k in s.workers
    ensures LeavesStreams(s, Advance(s, k, outcome))
  {
    WorkerLeavesStreams(s, k, Reading);
    match s.workers[k]
    case Reading =>
      if k in s.seenMhcs {
        WorkerLeavesStreams(s, k, GotMhc(s.seenMhcs[k]));
      }
    case GotMhc(m) =>
      if m.spec.stream in s.seenStreams {
        var status := s.seenStreams[m.spec.stream].status;
        WorkerLeavesStreams(s, k, Built(m, Build(k, m.spec, status.image, status.channel)));
      }
    case Built(m, hc) => WorkerLeavesStreams(s, k, if k in s.hosted then Updating(m, hc, s.hosted[k].version)
                                             else Creating(m, hc));
    case Creating(m, hc) => WrittenLeavesStreams(s, k, m, hc, outcome.Lost?);
    case Updating(m, hc, _) => WrittenLeavesStreams(s, k, m, hc, outcome.Lost?);
    case Reporting(m) => ReportedLeavesStreams(s, k, m, outcome.Lost?);
  }

  lemma SeeStreamKeepsStreams(s: State, n: string, x: Stream)
    requires StreamsInv(s) && Enabled(s, SeeStream(n, x))
    ensures StreamsInv(CachedStream(s, n, x))
  {
    assert (n, x) in s.pastStreams;
  }

  lemma BeginKeepsStreams(s: State, id: nat, n: string)
    requires StreamsInv(s) && n in s.seenStreams
    ensures StreamsInv(s.(resolvers := s.resolvers[id := Resolver(n, s.seenStreams[n])]))
  {
  }

  lemma OtherMovesLeaveStreams(s: State, a: Action)
    requires Enabled(s, a)
    requires !a.WriteStream? && !a.SeeStream? && !a.Step? && !a.BeginResolve? && !a.FinishResolve?
    ensures LeavesStreams(s, Move(s, a))
  {
  }

  lemma PastGrows(s: State, a: Action)
    requires Enabled(s, a)
    ensures s.pastStreams <= Move(s, a).pastStreams
  {
    if a.Step? {
      AdvanceLeavesStreams(s, a.key, a.outcome);
    }
  }

  lemma MoveKeepsStreams(s: State, a: Action)
    requires StreamsInv(s) && Enabled(s, a)
    ensures StreamsInv(Move(s, a))
  {
    match a
    case WriteStream(n, spec) => PutStreamKeepsStreams(s, n, spec, if n in s.streams then s.streams[n].status
                                                       else UNRESOLVED);
    case SeeStream(n, x) => SeeStreamKeepsStreams(s, n, x);
    case BeginResolve(id, n) => BeginKeepsStreams(s, id, n);
    case FinishResolve(id, service, outcome) => ResolveKeepsStreams(s, id, service, outcome);
    case Step(k, outcome) =>
      AdvanceLeavesStreams(s, k, outcome);
      SameStreams(s, Advance(s, k, outcome));
    case _ =>
      OtherMovesLeaveStreams(s, a);
      SameStreams(s, Move(s, a));
  }

  // HostedClusters.

  lemma SameHosted(s: State, next: State)
    requires HostedInv(s) && next.hosted == s.hosted && next.workers == s.workers && s.pastStreams <= next.pastStreams
    ensures HostedInv(next)
  {
    forall k | k in s.hosted
      ensures KnownPair(s.hosted[k].hc, next.pastStreams)
    {
      KnownStays(Reading, s.hosted[k].hc, s.pastStreams, next.pastStreams);
    }
    forall k | k in s.workers
      ensures PcKnown(s.workers[k], next.pastStreams)
    {
      match s.workers[k]
      case Built(_, hc) => KnownStays(s.workers[k], hc, s.pastStreams, next.pastStreams);
      case Creating(_, hc) => KnownStays(s.workers[k], hc, s.pastStreams, next.pastStreams);
      case Updating(_, hc, _) => KnownStays(s.workers[k], hc, s.pastStreams, next.pastStreams);
      case _ =>
    }
  }

  lemma WorkerKeepsHosted(s: State, k: Key, pc: Pc)
    requires HostedInv(s) && PcKnown(pc, s.pastStreams)
    ensures HostedInv(Goto(s, k, pc)) && HostedInv(Retry(s, k)) && HostedInv(Finish(s, k))
  {
  }

  lemma WrittenKeepsHosted(s: State, k: Key, m: Mhc, hc: HostedCluster, lost: bool)
    requires HostedInv(s) && KnownPair(hc, s.pastStreams)
    ensures HostedInv(Written(s, k, m, hc, lost))
  {
    assert HostedInv(PutHosted(s, k, hc));
    WorkerKeepsHosted(PutHosted(s, k, hc), k, Reporting(m));
  }

  lemma ReadStreamKeepsHosted(s: State, k: Key, m: Mhc)
    requires StreamsInv(s) && HostedInv(s)
    ensures HostedInv(ReadStream(s, k, m))
  {
    WorkerKeepsHosted(s, k, Reading);
    var n := m.spec.stream;
    if n in s.seenStreams && s.seenStreams[n].status.image != "" {
      var status := s.seenStreams[n].status;
      var hc := Build(k, m.spec, status.image, status.channel);
      BuildKeepsSettings(k, m.spec, status.image, status.channel);
      assert (n, s.seenStreams[n]) in s.pastStreams;
      assert KnownPair(hc, s.pastStreams);
      WorkerKeepsHosted(s, k, Built(m, hc));
    }
  }

  lemma ReportedKeepsHosted(s: State, k: Key, m: Mhc, lost: bool)
    requires HostedInv(s)
    ensures HostedInv(Reported(s, k, m, lost))
  {
    WorkerKeepsHosted(s, k, Reading);
    if k in s.mhcs {
      SameHosted(s, PutMhc(s, k, s.mhcs[k].spec));
      WorkerKeepsHosted(PutMhc(s, k, s.mhcs[k].spec), k, Reading);
    }
  }

  lemma AdvanceKeepsHosted(s: State, k: Key, outcome: Outcome)
    requires StreamsInv(s) && HostedInv(s) && k in s.workers
    ensures HostedInv(Advance(s, k, outcome))
  {
    WorkerKeepsHosted(s, k, Reading);
    assert PcKnown(s.workers[k], s.pastStreams);
    match s.workers[k]
    case Reading =>
      if k in s.seenMhcs {
        WorkerKeepsHosted(s, k, GotMhc(s.seenMhcs[k]));
      }
    case GotMhc(m) => ReadStreamKeepsHosted(s, k, m);
    case Built(m, hc) => WorkerKeepsHosted(s, k, if k in s.hosted then Updating(m, hc, s.hosted[k].version)
                                           else Creating(m, hc));
    case Creating(m, hc) => WrittenKeepsHosted(s, k, m, hc, outcome.Lost?);
    case Updating(m, hc, _) => WrittenKeepsHosted(s, k, m, hc, outcome.Lost?);
    case Reporting(m) => ReportedKeepsHosted(s, k, m, outcome.Lost?);
  }

  ghost predicate LeavesHosted(s: State, next: State) { next.hosted == s.hosted && next.workers == s.workers }

  lemma ResolveLeavesHosted(s: State, id: nat, service: Cincinnati.Service, outcome: Outcome)
    requires id in s.resolvers
    ensures LeavesHosted(s, Resolve(s, id, service, outcome))
  {
  }

  lemma OtherMovesLeaveHosted(s: State, a: Action)
    requires Enabled(s, a) && !a.Take? && !a.Step?
    ensures LeavesHosted(s, Move(s, a))
  {
    match a
    case FinishResolve(id, service, outcome) => ResolveLeavesHosted(s, id, service, outcome);
    case SeeMhc(k, m) => assert LeavesHosted(s, Cached(s, k, m));
    case WriteMhc(k, spec) => assert LeavesHosted(s, if spec.Some? then PutMhc(s, k, spec.value) else DropMhc(s, k));
    case _ =>
  }

  lemma MoveKeepsHosted(s: State, a: Action)
    requires StreamsInv(s) && HostedInv(s) && Enabled(s, a)
    ensures HostedInv(Move(s, a))
  {
    match a
    case Take(k) =>
      WorkerKeepsHosted(s, k, Reading);
      SameHosted(Goto(s, k, Reading), Move(s, a));
    case Step(k, outcome) => AdvanceKeepsHosted(s, k, outcome);
    case _ =>
      PastGrows(s, a);
      OtherMovesLeaveHosted(s, a);
      SameHosted(s, Move(s, a));
  }

  lemma {:induction false} RunKeepsTriples(s: State, run: seq<Action>)
    requires StreamsInv(s) && HostedInv(s) && ValidRun(s, run)
    ensures StreamsInv(Run(s, run)) && HostedInv(Run(s, run))
    decreases |run|
  {
    if run != [] {
      MoveKeepsStreams(s, run[0]);
      MoveKeepsHosted(s, run[0]);
      RunKeepsTriples(Move(s, run[0]), run[1..]);
    }
  }

  // Where a status comes from.

  /** In `s`, the step finishes a resolution of stream `n`'s own spec that succeeds with exactly
      this triple, and its write is accepted. */
  ghost predicate Brings(s: State, a: Action, n: string, status: StreamStatus) {
    && a.FinishResolve? && a.id in s.resolvers && s.resolvers[a.id].name == n && n in s.streams
    && !a.outcome.Failed? && s.streams[n].version == s.resolvers[a.id].copy.version
    && var spec := s.streams[n].spec;
       Cincinnati.Resolve(spec.target, spec.group, spec.arch, a.service)
         == Success(Cincinnati.Resolution(status.image, status.version, status.channel))
  }

  /** Step `i` of the run is such a resolution. */
  ghost predicate BroughtAt(run: seq<Action>, i: nat, n: string, status: StreamStatus) {
    && i < |run| && ValidRun(INITIAL, run[..i])
    && Brings(Run(INITIAL, run[..i]), run[i], n, status)
  }

  /** Empty, or all three fields of one resolution the run performed for this stream. */
  ghost predicate Coherent(run: seq<Action>, n: string, status: StreamStatus) {
    status == UNRESOLVED || exists i: nat :: BroughtAt(run, i, n, status)
  }

  lemma {:induction false} LastStep(s: State, run: seq<Action>)
    requires ValidRun(s, run) && run != []
    ensures var k := |run| - 1;
            && ValidRun(s, run[..k]) && Enabled(Run(s, run[..k]), run[k])
            && Run(s, run) == Move(Run(s, run[..k]), run[k])
    decreases |run|
  {
    var k := |run| - 1;
    if k == 0 {
      assert run[1..] == [];
    } else {
      LastStep(Move(s, run[0]), run[1..]);
      assert run[1..][..k - 1] == run[..k][1..];
    }
  }

  lemma CoherentStays(init: seq<Action>, a: Action, n: string, status: StreamStatus)
    requires Coherent(init, n, status)
    ensures Coherent(init + [a], n, status)
  {
    if status != UNRESOLVED {
      var i: nat :| BroughtAt(init, i, n, status);
      assert (init + [a])[..i] == init[..i];
      assert BroughtAt(init + [a], i, n, status);
    }
  }

  /** The copy a resolution may write back over is the stored stream itself. */
  lemma CopyIsCurrent(s: State, id: nat)
    requires StreamsInv(s) && id in s.resolvers && s.resolvers[id].name in s.streams
    requires s.streams[s.resolvers[id].name].version == s.resolvers[id].copy.version
    ensures s.streams[s.resolvers[id].name] == s.resolvers[id].copy
  {
  }

  /** A success never brings an empty image. */
  lemma ResolvedIsNotEmpty(copy: Stream, service: Cincinnati.Service)
    requires copy.status.image != ""
    ensures Resolved(copy, service).image != ""
  {
  }

  lemma ResolveAdds(s: State, id: nat, service: Cincinnati.Service, outcome: Outcome, n: string, x: Stream)
    requires StreamsInv(s) && id in s.resolvers
    requires (n, x) in Resolve(s, id, service, outcome).pastStreams && (n, x) !in s.pastStreams
    ensures !outcome.Failed? && s.resolvers[id].name == n && n in s.streams
    ensures s.streams[n] == s.resolvers[id].copy && x.status == Resolved(s.streams[n], service)
  {
    var r := s.resolvers[id];
    if r.name in s.streams && s.streams[r.name].version == r.copy.version {
      CopyIsCurrent(s, id);
    }
  }

  /** Of all other steps, only writing a stream's spec makes a new version, with the old status. */
  lemma OthersAdd(s: State, a: Action, n: string, x: Stream)
    requires Enabled(s, a) && !a.FinishResolve? && (n, x) in Move(s, a).pastStreams && (n, x) !in s.pastStreams
    ensures x.status == UNRESOLVED || (n in s.streams && x.status == s.streams[n].status)
  {
    match a
    case Step(k, outcome) => AdvanceLeavesStreams(s, k, outcome);
    case WriteStream(_, _) =>
    case SeeStream(_, _) =>
    case BeginResolve(_, _) =>
    case _ => OtherMovesLeaveStreams(s, a);
  }

  /** `Resolved` is the copy's status, or a success's three fields. */
  lemma ResolvedIsOneOf(copy: Stream, service: Cincinnati.Service)
    ensures || Resolved(copy, service) == copy.status
            || Cincinnati.Resolve(copy.spec.target, copy.spec.group, copy.spec.arch, service)
                 == Success(Cincinnati.Resolution(Resolved(copy, service).image, Resolved(copy, service).version,
                                                  Resolved(copy, service).channel))
  {
  }

  /** Every version of every stream that a run brings about is coherent. */
  lemma {:induction false} PastIsCoherent(run: seq<Action>, n: string, x: Stream)
    requires ValidRun(INITIAL, run) && (n, x) in Run(INITIAL, run).pastStreams
    ensures Coherent(run, n, x.status)
    decreases |run|
  {
    if run != [] {
      LastStep(INITIAL, run);
      var k := |run| - 1;
      var init, a := run[..k], run[k];
      assert run == init + [a];
      var s := Run(INITIAL, init);
      RunKeepsTriples(INITIAL, init);
      if (n, x) in s.pastStreams {
        PastIsCoherent(init, n, x);
        CoherentStays(init, a, n, x.status);
      } else if x.status != UNRESOLVED {
        if a.FinishResolve? {
          ResolveAdds(s, a.id, a.service, a.outcome, n, x);
        } else {
          OthersAdd(s, a, n, x);
        }
        if x.status == s.streams[n].status {
          PastIsCoherent(init, n, s.streams[n]);
          CoherentStays(init, a, n, x.status);
        } else {
          ResolvedIsOneOf(s.streams[n], a.service);
          assert BroughtAt(run, k, n, x.status);
        }
      }
    }
  }

  // Main results.

  /** In every reachable state a stream's image, version and channel are all empty, or are all
      three what one accepted, successful resolution of this stream in this run brought. */
  lemma TriplesAreCoherent(run: seq<Action>, n: string)
    requires ValidRun(INITIAL, run) && n in Run(INITIAL, run).streams
    ensures Coherent(run, n, Run(INITIAL, run).streams[n].status)
  {
    RunKeepsTriples(INITIAL, run);
    PastIsCoherent(run, n, Run(INITIAL, run).streams[n]);
  }

  /** Every HostedCluster carries an image and a channel that stood together in some stream's
      status, and that one resolution of the run brought together. */
  lemma HostedPairsOccurredTogether(run: seq<Action>, k: Key)
    requires ValidRun(INITIAL, run) && k in Run(INITIAL, run).hosted
    ensures var hc := Run(INITIAL, run).hosted[k].hc;
            && KnownPair(hc, Run(INITIAL, run).pastStreams)
            && exists n, status, i: nat :: BroughtAt(run, i, n, status)
                 && status.image == hc.spec.releaseImage && status.channel == hc.spec.channel
  {
    RunKeepsTriples(INITIAL, run);
    var s := Run(INITIAL, run);
    var hc := s.hosted[k].hc;
    var n, x :| (n, x) in s.pastStreams && x.status.image == hc.spec.releaseImage != ""
        && x.status.channel == hc.spec.channel;
    PastIsCoherent(run, n, x);
    var i: nat :| BroughtAt(run, i, n, x.status);
  }

  /** What a resolution does to one stream: nothing, or it writes its result over the copy. */
  lemma ResolveOnStream(s: State, id: nat, service: Cincinnati.Service, outcome: Outcome, n: string)
    requires StreamsInv(s) && id in s.resolvers && n in s.streams
    ensures var next, copy := Resolve(s, id, service, outcome), s.resolvers[id].copy;
            n in next.streams
            && (next.streams[n] == s.streams[n]
                || (!outcome.Failed? && n == s.resolvers[id].name && s.streams[n] == copy
                    && next.streams[n].status == Resolved(copy, service)))
  {
    var r := s.resolvers[id];
    if r.name in s.streams && s.streams[r.name].version == r.copy.version {
      CopyIsCurrent(s, id);
    }
  }

  /** A failed resolution, a refused write and a conflict all leave every stream's triple as it was. */
  lemma FailureKeepsTriples(s: State, id: nat, service: Cincinnati.Service, outcome: Outcome, n: string)
    requires StreamsInv(s) && id in s.resolvers && n in s.streams
    requires var r := s.resolvers[id];
             || Cincinnati.Resolve(r.copy.spec.target, r.copy.spec.group, r.copy.spec.arch, service).Failure?
             || outcome.Failed?
             || r.name !in s.streams || s.streams[r.name].version != r.copy.version
    ensures n in Resolve(s, id, service, outcome).streams
    ensures Resolve(s, id, service, outcome).streams[n].status == s.streams[n].status
  {
    ResolveOnStream(s, id, service, outcome, n);
    var r := s.resolvers[id];
    if outcome.Failed? || r.name !in s.streams || s.streams[r.name].version != r.copy.version {
      assert Resolve(s, id, service, outcome).streams == s.streams;
    }
  }

  lemma ResolveKeepsResolved(s: State, id: nat, service: Cincinnati.Service, outcome: Outcome, n: string)
    requires StreamsInv(s) && id in s.resolvers && n in s.streams && s.streams[n].status.image != ""
    ensures n in Resolve(s, id, service, outcome).streams
    ensures Resolve(s, id, service, outcome).streams[n].status.image != ""
  {
    ResolveOnStream(s, id, service, outcome, n);
    if s.streams[n] == s.resolvers[id].copy {
      ResolvedIsNotEmpty(s.resolvers[id].copy, service);
    }
  }

  lemma MoveKeepsResolved(s: State, a: Action, n: string)
    requires StreamsInv(s) && Enabled(s, a) && n in s.streams && s.streams[n].status.image != ""
    ensures n in Move(s, a).streams && Move(s, a).streams[n].status.image != ""
  {
    match a
    case FinishResolve(id, service, outcome) => ResolveKeepsResolved(s, id, service, outcome, n);
    case WriteStream(_, _) =>
    case Step(k, outcome) => AdvanceLeavesStreams(s, k, outcome);
    case SeeStream(_, _) =>
    case BeginResolve(_, _) =>
    case _ => OtherMovesLeaveStreams(s, a);
  }

  /** Once resolved, a stream never returns to empty, whatever happens next. */
  lemma {:induction false} ResolvedStaysResolved(s: State, run: seq<Action>, n: string)
    requires StreamsInv(s) && ValidRun(s, run) && n in s.streams && s.streams[n].status.image != ""
    ensures n in Run(s, run).streams && Run(s, run).streams[n].status.image != ""
    decreases |run|
  {
    if run != [] {
      MoveKeepsStreams(s, run[0]);
      MoveKeepsResolved(s, run[0], n);
      ResolvedStaysResolved(Move(s, run[0]), run[1..], n);
    }
  }
}
