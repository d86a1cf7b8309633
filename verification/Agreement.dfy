/**
  Level-triggered agreement (internal/controller/hostedcluster_controller.go): whenever a
  HostedCluster differs from what the current inputs call for, its key is queued, about to
  be queued, or being worked on with the current inputs.
 */
module Agreement {
  import opened Wrappers
  import opened HostedClusters
  import opened Controllers
  import Cincinnati

  /** The inputs of a cluster with a resolved stream. */
  ghost predicate HasInputs(s: State, k: Key) {
    && k in s.mhcs && s.mhcs[k].spec.stream in s.streams
    && s.streams[s.mhcs[k].spec.stream].status.image != ""
  }

  /** The HostedCluster they call for. */
  ghost function Wanted(s: State, k: Key): HostedCluster
    requires HasInputs(s, k)
  {
    var status := s.streams[s.mhcs[k].spec.stream].status;
    Build(k, s.mhcs[k].spec, status.image, status.channel)
  }

  ghost predicate Agreed(s: State, k: Key)
    requires HasInputs(s, k)
  {
    k in s.hosted && s.hosted[k].hc == Wanted(s, k)
  }

  /** Something is on its way that will queue the key, or has. */
  ghost predicate Pending(s: State, k: Key)
    requires k in s.mhcs
  {
    || k in s.dirty || k in s.delayed
    || k in s.staleMhcs || k in s.mhcEvents
    || s.mhcs[k].spec.stream in s.staleStreams || s.mhcs[k].spec.stream in s.streamEvents
  }

  /** The worker holds nothing that differs from the current inputs, and has not written yet. */
  ghost predicate Fresh(s: State, k: Key)
    requires HasInputs(s, k) && k in s.workers
  {
    match s.workers[k]
    case Reading => true
    case GotMhc(m) => m.spec == s.mhcs[k].spec
    case Built(_, hc) => hc == Wanted(s, k)
    case Creating(_, hc) => hc == Wanted(s, k)
    case Updating(_, hc, _) => hc == Wanted(s, k)
    case Reporting(_) => false
  }

  /** A worker that still has to write either holds the current inputs or will be followed by
      another pass; without one, the HostedCluster is as wanted or a pass is coming. */
  ghost predicate KeyInv(s: State, k: Key) {
    HasInputs(s, k) ==>
      || Pending(s, k)
      || if k in s.workers && !s.workers[k].Reporting? then Fresh(s, k) else Agreed(s, k)
  }

  ghost predicate CachesInv(s: State) {
    && (forall k :: k in s.staleMhcs || Lookup(s.seenMhcs, k) == Lookup(s.mhcs, k))
    && (forall n :: n in s.staleStreams || Lookup(s.seenStreams, n) == Lookup(s.streams, n))
  }

  ghost predicate Inv(s: State) {
    CachesInv(s) && forall k :: KeyInv(s, k)
  }

  // Steps that leave a key's inputs and its worker alone.

  /** Whatever made the key pending still does, or something else does now. */
  ghost predicate StillPending(s: State, next: State, k: Key) {
    && k in next.mhcs
    && (k in s.mhcs && Pending(s, k) ==> Pending(next, k))
  }

  lemma SameKey(s: State, next: State, k: Key)
    requires KeyInv(s, k)
    requires Lookup(next.mhcs, k) == Lookup(s.mhcs, k) && next.streams == s.streams
    requires Lookup(next.hosted, k) == Lookup(s.hosted, k) && Lookup(next.workers, k) == Lookup(s.workers, k)
    requires k in s.mhcs ==> StillPending(s, next, k)
    ensures KeyInv(next, k)
  {
  }

  lemma WriteMhcKeepsKey(s: State, k: Key, spec: Option<MhcSpec>, q: Key)
    requires Inv(s) && Enabled(s, WriteMhc(k, spec))
    ensures KeyInv(Move(s, WriteMhc(k, spec)), q)
  {
    assert KeyInv(s, q);
    if q != k {
      SameKey(s, if spec.Some? then PutMhc(s, k, spec.value) else DropMhc(s, k), q);
    } else {
      assert k in Move(s, WriteMhc(k, spec)).staleMhcs;
    }
  }

  lemma PutStreamKeepsKey(s: State, n: string, spec: StreamSpec, status: StreamStatus, q: Key)
    requires KeyInv(s, q)
    ensures KeyInv(PutStream(s, n, spec, status), q)
  {
  }

  lemma SeeKeepsKey(s: State, a: Action, q: Key)
    requires Inv(s) && Enabled(s, a) && (a.SeeMhc? || a.SeeStream?)
    ensures KeyInv(Move(s, a), q)
  {
    assert KeyInv(s, q);
    SameKey(s, Move(s, a), q);
  }

  lemma NotifyMhcKeepsKey(s: State, k: Key, q: Key)
    requires Inv(s)
    ensures KeyInv(s.(mhcEvents := s.mhcEvents - {k}, dirty := s.dirty + {k}), q)
  {
    assert KeyInv(s, q);
    SameKey(s, s.(mhcEvents := s.mhcEvents - {k}, dirty := s.dirty + {k}), q);
  }

  /** A cluster of the stream is in the cached list, or its own event is still to come. */
  lemma NotifyStreamKeepsKey(s: State, n: string, q: Key)
    requires Inv(s)
    ensures KeyInv(s.(streamEvents := s.streamEvents - {n}, dirty := s.dirty + Mapped(s, n)), q)
  {
    assert KeyInv(s, q);
    assert q in s.staleMhcs || Lookup(s.seenMhcs, q) == Lookup(s.mhcs, q);
    SameKey(s, s.(streamEvents := s.streamEvents - {n}, dirty := s.dirty + Mapped(s, n)), q);
  }

  lemma TakeKeepsKey(s: State, k: Key, q: Key)
    requires Inv(s)
    ensures KeyInv(s.(dirty := s.dirty - {k}, workers := s.workers[k := Reading]), q)
  {
    assert KeyInv(s, q);
    if q != k {
      SameKey(s, s.(dirty := s.dirty - {k}, workers := s.workers[k := Reading]), q);
    }
  }

  // The worker's own key.

  lemma ReadMhcKeepsKey(s: State, k: Key)
    requires Inv(s) && k in s.workers && s.workers[k].Reading?
    ensures KeyInv(ReadMhc(s, k), k)
  {
    assert KeyInv(s, k);
    assert k in s.staleMhcs || Lookup(s.seenMhcs, k) == Lookup(s.mhcs, k);
  }

  lemma ReadStreamKeepsKey(s: State, k: Key, m: Mhc)
    requires Inv(s) && k in s.workers && s.workers[k] == GotMhc(m)
    ensures KeyInv(ReadStream(s, k, m), k)
  {
    assert KeyInv(s, k);
    var n := m.spec.stream;
    assert n in s.staleStreams || Lookup(s.seenStreams, n) == Lookup(s.streams, n);
  }

  lemma ReadHostedKeepsKey(s: State, k: Key, m: Mhc, hc: HostedCluster)
    requires KeyInv(s, k) && k in s.workers && s.workers[k] == Built(m, hc)
    ensures KeyInv(ReadHosted(s, k, m, hc), k)
  {
  }

  lemma RetryKeepsKey(s: State, k: Key)
    ensures KeyInv(Retry(s, k), k)
  {
  }

  lemma ReportedKeepsKey(s: State, k: Key, m: Mhc, lost: bool)
    requires KeyInv(s, k) && k in s.workers && s.workers[k] == Reporting(m)
    ensures KeyInv(Reported(s, k, m, lost), k)
  {
  }

  lemma WriteKeepsKey(s: State, k: Key, m: Mhc, hc: HostedCluster, lost: bool)
    requires KeyInv(s, k) && k in s.workers && !s.workers[k].Reporting?
    requires HasInputs(s, k) && Fresh(s, k) && !Pending(s, k) ==> hc == Wanted(s, k)
    ensures KeyInv(Written(s, k, m, hc, lost), k)
  {
  }

  lemma AdvanceKeepsOwn(s: State, k: Key, outcome: Outcome)
    requires Inv(s) && k in s.workers
    ensures KeyInv(Advance(s, k, outcome), k)
  {
    assert KeyInv(s, k);
    RetryKeepsKey(s, k);
    match s.workers[k]
    case Reading => ReadMhcKeepsKey(s, k);
    case GotMhc(m) => ReadStreamKeepsKey(s, k, m);
    case Built(m, hc) => ReadHostedKeepsKey(s, k, m, hc);
    case Creating(m, hc) => WriteKeepsKey(s, k, m, hc, outcome.Lost?);
    case Updating(m, hc, _) => WriteKeepsKey(s, k, m, hc, outcome.Lost?);
    case Reporting(m) => ReportedKeepsKey(s, k, m, outcome.Lost?);
  }

  // Every other key.

  lemma GotoKeepsOther(s: State, k: Key, pc: Pc, q: Key)
    requires KeyInv(s, q) && q != k
    ensures KeyInv(Goto(s, k, pc), q)
  {
    SameKey(s, Goto(s, k, pc), q);
  }

  lemma RetryKeepsOther(s: State, k: Key, q: Key)
    requires KeyInv(s, q) && q != k
    ensures KeyInv(Retry(s, k), q)
  {
    SameKey(s, Retry(s, k), q);
  }

  lemma FinishKeepsOther(s: State, k: Key, q: Key)
    requires KeyInv(s, q) && q != k
    ensures KeyInv(Finish(s, k), q)
  {
    SameKey(s, Finish(s, k), q);
  }

  lemma WorkerKeepsOther(s: State, k: Key, pc: Pc, q: Key)
    requires KeyInv(s, q) && q != k
    ensures KeyInv(Goto(s, k, pc), q) && KeyInv(Retry(s, k), q) && KeyInv(Finish(s, k), q)
  {
    GotoKeepsOther(s, k, pc, q);
    RetryKeepsOther(s, k, q);
    FinishKeepsOther(s, k, q);
  }

  lemma WrittenKeepsOther(s: State, k: Key, m: Mhc, hc: HostedCluster, lost: bool, q: Key)
    requires KeyInv(s, q) && q != k
    ensures KeyInv(Written(s, k, m, hc, lost), q)
  {
    SameKey(s, PutHosted(s, k, hc), q);
    WorkerKeepsOther(PutHosted(s, k, hc), k, Reporting(m), q);
  }

  lemma ReportedKeepsOther(s: State, k: Key, m: Mhc, lost: bool, q: Key)
    requires KeyInv(s, q) && q != k
    ensures KeyInv(Reported(s, k, m, lost), q)
  {
    WorkerKeepsOther(s, k, Reading, q);
    if k in s.mhcs {
      SameKey(s, PutMhc(s, k, s.mhcs[k].spec), q);
      WorkerKeepsOther(PutMhc(s, k, s.mhcs[k].spec), k, Reading, q);
    }
  }

  lemma AdvanceKeepsOthers(s: State, k: Key, outcome: Outcome, q: Key)
    requires KeyInv(s, q) && k in s.workers && q != k
    ensures KeyInv(Advance(s, k, outcome), q)
  {
    WorkerKeepsOther(s, k, Reading, q);
    match s.workers[k]
    case Reading =>
      if k in s.seenMhcs {
        WorkerKeepsOther(s, k, GotMhc(s.seenMhcs[k]), q);
      }
    case GotMhc(m) =>
      if m.spec.stream in s.seenStreams {
        var status := s.seenStreams[m.spec.stream].status;
        WorkerKeepsOther(s, k, Built(m, Build(k, m.spec, status.image, status.channel)), q);
      }
    case Built(m, hc) => WorkerKeepsOther(s, k, if k in s.hosted then Updating(m, hc, s.hosted[k].version)
                                          else Creating(m, hc), q);
    case Creating(m, hc) => WrittenKeepsOther(s, k, m, hc, outcome.Lost?, q);
    case Updating(m, hc, _) => WrittenKeepsOther(s, k, m, hc, outcome.Lost?, q);
    case Reporting(m) => ReportedKeepsOther(s, k, m, outcome.Lost?, q);
  }

  lemma MoveKeepsKey(s: State, a: Action, q: Key)
    requires Inv(s) && Enabled(s, a)
    ensures KeyInv(Move(s, a), q)
  {
    assert KeyInv(s, q);
    match a
    case WriteMhc(k, spec) => WriteMhcKeepsKey(s, k, spec, q);
    case WriteStream(n, spec) => PutStreamKeepsKey(s, n, spec, if n in s.streams then s.streams[n].status
                                                   else UNRESOLVED, q);
    case SeeMhc(_, _) => SeeKeepsKey(s, a, q);
    case SeeStream(_, _) => SeeKeepsKey(s, a, q);
    case NotifyMhc(k) => NotifyMhcKeepsKey(s, k, q);
    case NotifyStream(n) => NotifyStreamKeepsKey(s, n, q);
    case Expire(k) => SameKey(s, Move(s, a), q);
    case Take(k) => TakeKeepsKey(s, k, q);
    case Step(k, outcome) =>
      if q == k {
        AdvanceKeepsOwn(s, k, outcome);
      } else {
        AdvanceKeepsOthers(s, k, outcome, q);
      }
    case BeginResolve(id, n) => SameKey(s, Move(s, a), q);
    case FinishResolve(id, service, outcome) => ResolveKeepsKey(s, id, service, outcome, q);
  }

  lemma ResolveKeepsKey(s: State, id: nat, service: Cincinnati.Service, outcome: Outcome, q: Key)
    requires Inv(s) && id in s.resolvers
    ensures KeyInv(Resolve(s, id, service, outcome), q)
  {
    assert KeyInv(s, q);
    var n, copy := s.resolvers[id].name, s.resolvers[id].copy;
    var done := s.(resolvers := s.resolvers - {id});
    SameKey(s, done, q);
    if n in s.streams {
      PutStreamKeepsKey(done, n, s.streams[n].spec, Resolved(copy, service), q);
    }
  }

  // The caches.

  lemma SameCaches(s: State, next: State)
    requires CachesInv(s)
    requires next.mhcs == s.mhcs && next.seenMhcs == s.seenMhcs && next.staleMhcs == s.staleMhcs
    requires next.streams == s.streams && next.seenStreams == s.seenStreams && next.staleStreams == s.staleStreams
    ensures CachesInv(next)
  {
  }

  lemma WorkerKeepsCaches(s: State, k: Key, pc: Pc)
    requires CachesInv(s)
    ensures CachesInv(Goto(s, k, pc)) && CachesInv(Retry(s, k)) && CachesInv(Finish(s, k))
  {
    SameCaches(s, Goto(s, k, pc));
    SameCaches(s, Retry(s, k));
    SameCaches(s, Finish(s, k));
  }

  lemma WrittenKeepsCaches(s: State, k: Key, m: Mhc, hc: HostedCluster, lost: bool)
    requires CachesInv(s)
    ensures CachesInv(Written(s, k, m, hc, lost))
  {
    SameCaches(s, PutHosted(s, k, hc));
    WorkerKeepsCaches(PutHosted(s, k, hc), k, Reporting(m));
  }

  lemma ReportedKeepsCaches(s: State, k: Key, m: Mhc, lost: bool)
    requires CachesInv(s)
    ensures CachesInv(Reported(s, k, m, lost))
  {
    WorkerKeepsCaches(s, k, Reading);
    if k in s.mhcs {
      WriteKeepsCaches(s, k, s.mhcs[k].spec);
      WorkerKeepsCaches(PutMhc(s, k, s.mhcs[k].spec), k, Reading);
    }
  }

  lemma AdvanceKeepsCaches(s: State, k: Key, outcome: Outcome)
    requires CachesInv(s) && k in s.workers
    ensures CachesInv(Advance(s, k, outcome))
  {
    WorkerKeepsCaches(s, k, Reading);
    match s.workers[k]
    case Reading =>
      if k in s.seenMhcs {
        WorkerKeepsCaches(s, k, GotMhc(s.seenMhcs[k]));
      }
    case GotMhc(m) =>
      if m.spec.stream in s.seenStreams {
        var status := s.seenStreams[m.spec.stream].status;
        WorkerKeepsCaches(s, k, Built(m, Build(k, m.spec, status.image, status.channel)));
      }
    case Built(m, hc) => WorkerKeepsCaches(s, k, if k in s.hosted then Updating(m, hc, s.hosted[k].version)
                                           else Creating(m, hc));
    case Creating(m, hc) => WrittenKeepsCaches(s, k, m, hc, outcome.Lost?);
    case Updating(m, hc, _) => WrittenKeepsCaches(s, k, m, hc, outcome.Lost?);
    case Reporting(m) => ReportedKeepsCaches(s, k, m, outcome.Lost?);
  }

  lemma PutStreamKeepsCaches(s: State, n: string, spec: StreamSpec, status: StreamStatus)
    requires CachesInv(s)
    ensures CachesInv(PutStream(s, n, spec, status))
  {
  }

  lemma WriteKeepsCaches(s: State, k: Key, spec: MhcSpec)
    requires CachesInv(s)
    ensures CachesInv(PutMhc(s, k, spec)) && CachesInv(DropMhc(s, k))
  {
  }

  lemma CachedKeepsCaches(s: State, k: Key, m: Option<Mhc>)
    requires CachesInv(s) && (m == Lookup(s.mhcs, k) || k in s.staleMhcs)
    ensures CachesInv(Cached(s, k, m))
  {
  }

  lemma CachedStreamKeepsCaches(s: State, n: string, x: Stream)
    requires CachesInv(s) && (Some(x) == Lookup(s.streams, n) || n in s.staleStreams)
    ensures CachesInv(CachedStream(s, n, x))
  {
  }

  lemma ResolveKeepsCaches(s: State, id: nat, service: Cincinnati.Service, outcome: Outcome)
    requires CachesInv(s) && id in s.resolvers
    ensures CachesInv(Resolve(s, id, service, outcome))
  {
    var n, done := s.resolvers[id].name, s.(resolvers := s.resolvers - {id});
    if n in s.streams {
      PutStreamKeepsCaches(done, n, s.streams[n].spec, Resolved(s.resolvers[id].copy, service));
    }
  }

  lemma MoveKeepsCaches(s: State, a: Action)
    requires CachesInv(s) && Enabled(s, a)
    ensures CachesInv(Move(s, a))
  {
    match a
    case WriteMhc(k, spec) => WriteKeepsCaches(s, k, if spec.Some? then spec.value else s.mhcs[k].spec);
    case WriteStream(n, spec) => PutStreamKeepsCaches(s, n, spec, if n in s.streams then s.streams[n].status
                                                      else UNRESOLVED);
    case SeeMhc(k, m) => CachedKeepsCaches(s, k, m);
    case SeeStream(n, x) => CachedStreamKeepsCaches(s, n, x);
    case Step(k, outcome) => AdvanceKeepsCaches(s, k, outcome);
    case FinishResolve(id, service, outcome) => ResolveKeepsCaches(s, id, service, outcome);
    case _ =>
  }

  lemma MoveKeepsInv(s: State, a: Action)
    requires Inv(s) && Enabled(s, a)
    ensures Inv(Move(s, a))
  {
    MoveKeepsCaches(s, a);
    forall q
      ensures KeyInv(Move(s, a), q)
    {
      MoveKeepsKey(s, a, q);
    }
  }

  lemma {:induction false} RunKeepsInv(s: State, run: seq<Action>)
    requires Inv(s) && ValidRun(s, run)
    ensures Inv(Run(s, run))
    decreases |run|
  {
    if run != [] {
      MoveKeepsInv(s, run[0]);
      RunKeepsInv(Move(s, run[0]), run[1..]);
    }
  }

  // Main results, from the empty cluster.

  lemma InitialInv()
    ensures Inv(INITIAL)
  {
  }

  /** In every reachable state, a HostedCluster that differs from what the current inputs call
      for has its key queued, due to be queued, or held by a worker that has yet to write and
      holds nothing but current inputs. */
  lemma LevelTriggered(run: seq<Action>, k: Key)
    requires ValidRun(INITIAL, run)
    requires HasInputs(Run(INITIAL, run), k) && !Agreed(Run(INITIAL, run), k)
    ensures var s := Run(INITIAL, run);
            Pending(s, k) || (k in s.workers && !s.workers[k].Reporting? && Fresh(s, k))
  {
    InitialInv();
    RunKeepsInv(INITIAL, run);
    assert KeyInv(Run(INITIAL, run), k);
  }

  /** In particular nothing is left undone: with no pass under way or coming, they agree. */
  lemma QuietIsAgreed(run: seq<Action>, k: Key)
    requires ValidRun(INITIAL, run)
    requires var s := Run(INITIAL, run); HasInputs(s, k) && !Pending(s, k) && k !in s.workers
    ensures Agreed(Run(INITIAL, run), k)
  {
    InitialInv();
    RunKeepsInv(INITIAL, run);
    assert KeyInv(Run(INITIAL, run), k);
  }

  // One undisturbed pass.

  function Steps(k: Key, n: nat): seq<Action> {
    if n == 0 then [] else [Step(k, Answered)] + Steps(k, n - 1)
  }

  function Pass(k: Key): seq<Action> { [Take(k)] + Steps(k, 5) }

  lemma FirstStep(s: State, k: Key, n: nat)
    requires k in s.workers && ValidRun(Advance(s, k, Answered), Steps(k, n))
    ensures ValidRun(s, Steps(k, n + 1)) && Run(s, Steps(k, n + 1)) == Run(Advance(s, k, Answered), Steps(k, n))
  {
    assert Steps(k, n + 1)[1..] == Steps(k, n);
  }

  lemma WritingEnds(s: State, k: Key, m: Mhc, hc: HostedCluster)
    requires k in s.workers && k in s.mhcs && s.mhcs[k] == m
    requires s.workers[k] == if k in s.hosted then Updating(m, hc, s.hosted[k].version) else Creating(m, hc)
    ensures ValidRun(s, Steps(k, 2))
    ensures var next := Run(s, Steps(k, 2));
            k !in next.workers && k in next.hosted && next.hosted[k].hc == hc && k in next.mhcs
                && next.mhcs[k].spec == m.spec
  {
    var s1 := Advance(s, k, Answered);
    assert s1 == Written(s, k, m, hc, false);
    assert s1.workers[k] == Reporting(m);
    assert Advance(s1, k, Answered) == Reported(s1, k, m, false);
    FirstStep(s1, k, 0);
    FirstStep(s, k, 1);
  }

  lemma ReadingEnds(s: State, k: Key)
    requires HasInputs(s, k) && k in s.workers && s.workers[k] == Reading
    requires Lookup(s.seenMhcs, k) == Some(s.mhcs[k])
    requires Lookup(s.seenStreams, s.mhcs[k].spec.stream) == Some(s.streams[s.mhcs[k].spec.stream])
    requires ValidRun(Goto(s, k, Built(s.mhcs[k], Wanted(s, k))), Steps(k, 3))
    ensures ValidRun(s, Steps(k, 5))
    ensures Run(s, Steps(k, 5)) == Run(Goto(s, k, Built(s.mhcs[k], Wanted(s, k))), Steps(k, 3))
  {
    var m := s.mhcs[k];
    var s1 := Goto(s, k, GotMhc(m));
    assert Advance(s, k, Answered) == s1;
    var s2 := Goto(s, k, Built(m, Wanted(s, k)));
    assert Advance(s1, k, Answered) == Goto(s1, k, Built(m, Wanted(s, k))) == s2;
    FirstStep(s1, k, 3);
    FirstStep(s, k, 4);
  }

  /** A pass that starts with current caches and meets no error makes the HostedCluster what
      the inputs call for, and ends. */
  lemma PassInstalls(s: State, k: Key)
    requires HasInputs(s, k) && k in s.dirty && k !in s.workers
    requires Lookup(s.seenMhcs, k) == Some(s.mhcs[k])
    requires Lookup(s.seenStreams, s.mhcs[k].spec.stream) == Some(s.streams[s.mhcs[k].spec.stream])
    ensures ValidRun(s, Pass(k))
    ensures var next := Run(s, Pass(k));
            && k !in next.workers && k in next.hosted && next.hosted[k].hc == Wanted(s, k)
            && k in next.mhcs && next.mhcs[k].spec == s.mhcs[k].spec
  {
    var m, hc := s.mhcs[k], Wanted(s, k);
    var s1 := Move(s, Take(k));
    var s2 := Goto(s1, k, Built(m, hc));
    var s3 := ReadHosted(s2, k, m, hc);
    assert Advance(s2, k, Answered) == s3;
    WritingEnds(s3, k, m, hc);
    FirstStep(s2, k, 2);
    assert Wanted(s1, k) == hc;
    ReadingEnds(s1, k);
    assert Pass(k)[1..] == Steps(k, 5);
  }
}
