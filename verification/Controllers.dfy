/**
  The two controllers as a state machine (internal/controller/hostedcluster_controller.go
  and internal/controller/versionstream_controller.go): the objects in the API server, the
  informers' caches and pending notifications, the work queue with its dirty keys and
  delayed retries, one worker per key, and any number of version resolutions.

  Watch events and lists may be late but are not lost, and only the controller writes
  HostedClusters. Every object write gives the object a new, larger version.
 */
module Controllers {
  import opened Wrappers
  import opened HostedClusters
  import Cincinnati

  datatype Mhc = Mhc(spec: MhcSpec, version: nat)

  datatype StreamSpec = StreamSpec(target: string, group: string, arch: string)

  datatype StreamStatus = StreamStatus(image: string, version: string, channel: string)

  const UNRESOLVED := StreamStatus("", "", "")

  datatype Stream = Stream(spec: StreamSpec, status: StreamStatus, version: nat)

  datatype Stored = Stored(hc: HostedCluster, version: nat)

  /** Where a worker's reconciliation stands. */
  datatype Pc =
    | Reading
    | GotMhc(m: Mhc)
    | Built(m: Mhc, hc: HostedCluster)
    | Creating(m: Mhc, hc: HostedCluster)
    | Updating(m: Mhc, hc: HostedCluster, version: nat)
    | Reporting(m: Mhc)

  /** A resolution under way, with the stream as it was read. */
  datatype Resolver = Resolver(name: string, copy: Stream)

  /** `past` records every version of every object there has been; `clock` is the next version. */
  datatype State = State(
    mhcs: map<Key, Mhc>,
    streams: map<string, Stream>,
    hosted: map<Key, Stored>,
    seenMhcs: map<Key, Mhc>,
    seenStreams: map<string, Stream>,
    staleMhcs: set<Key>,
    staleStreams: set<string>,
    mhcEvents: set<Key>,
    streamEvents: set<string>,
    dirty: set<Key>,
    delayed: set<Key>,
    workers: map<Key, Pc>,
    resolvers: map<nat, Resolver>,
    pastMhcs: set<(Key, Mhc)>,
    pastStreams: set<(string, Stream)>,
    clock: nat)

  const INITIAL := State(map[], map[], map[], map[], map[], {}, {}, {}, {}, {}, {}, map[], map[], {}, {}, 0)

  /** A call is answered, applied but answered with an error, or refused. */
  datatype Outcome = Answered | Lost | Failed

  datatype Action =
    | WriteMhc(key: Key, spec: Option<MhcSpec>)
    | WriteStream(name: string, streamSpec: StreamSpec)
    | SeeMhc(key: Key, mhc: Option<Mhc>)
    | SeeStream(name: string, stream: Stream)
    | NotifyMhc(key: Key)
    | NotifyStream(name: string)
    | Expire(key: Key)
    | Take(key: Key)
    | Step(key: Key, outcome: Outcome)
    | BeginResolve(id: nat, name: string)
    | FinishResolve(id: nat, service: Cincinnati.Service, outcome: Outcome)

  /** A cache catches up with the current object or with an earlier version of it. */
  predicate Enabled(s: State, a: Action) {
    match a
    case WriteMhc(k, spec) => spec.Some? || k in s.mhcs
    case WriteStream(_, _) => true
    case SeeMhc(k, m) => m == Lookup(s.mhcs, k) || (k in s.staleMhcs && (m.Some? ==> (k, m.value) in s.pastMhcs))
    case SeeStream(n, x) => Some(x) == Lookup(s.streams, n) || (n in s.staleStreams && (n, x) in s.pastStreams)
    case NotifyMhc(k) => k in s.mhcEvents
    case NotifyStream(n) => n in s.streamEvents
    case Expire(k) => k in s.delayed
    case Take(k) => k in s.dirty && k !in s.workers
    case Step(k, _) => k in s.workers
    case BeginResolve(id, n) => id !in s.resolvers && n in s.seenStreams
    case FinishResolve(id, _, _) => id in s.resolvers
  }

  // Writes to the API server.

  function PutMhc(s: State, k: Key, spec: MhcSpec): State {
    var m := Mhc(spec, s.clock);
    s.(mhcs := s.mhcs[k := m], staleMhcs := s.staleMhcs + {k}, pastMhcs := s.pastMhcs + {(k, m)}, clock := s.clock + 1)
  }

  function DropMhc(s: State, k: Key): State {
    s.(mhcs := s.mhcs - {k}, staleMhcs := s.staleMhcs + {k})
  }

  function PutStream(s: State, n: string, spec: StreamSpec, status: StreamStatus): State {
    var x := Stream(spec, status, s.clock);
    s.(streams := s.streams[n := x], staleStreams := s.staleStreams + {n},
       pastStreams := s.pastStreams + {(n, x)}, clock := s.clock + 1)
  }

  function PutHosted(s: State, k: Key, hc: HostedCluster): State {
    s.(hosted := s.hosted[k := Stored(hc, s.clock)], clock := s.clock + 1)
  }

  // The informers.

  function Cached(s: State, k: Key, m: Option<Mhc>): State {
    s.(seenMhcs := if m.Some? then s.seenMhcs[k := m.value] else s.seenMhcs - {k},
       staleMhcs := if m == Lookup(s.mhcs, k) then s.staleMhcs - {k} else s.staleMhcs,
       mhcEvents := s.mhcEvents + {k})
  }

  function CachedStream(s: State, n: string, x: Stream): State {
    s.(seenStreams := s.seenStreams[n := x],
       staleStreams := if Some(x) == Lookup(s.streams, n) then s.staleStreams - {n} else s.staleStreams,
       streamEvents := s.streamEvents + {n})
  }

  /** The clusters a stream's event is mapped to, from the cached list. */
  function Mapped(s: State, n: string): set<Key> {
    set k | k in s.seenMhcs && s.seenMhcs[k].spec.stream == n
  }

  // One reconciliation.

  function Finish(s: State, k: Key): State { s.(workers := s.workers - {k}) }

  /** An error or a request to be queued again later. */
  function Retry(s: State, k: Key): State { s.(workers := s.workers - {k}, delayed := s.delayed + {k}) }

  function Goto(s: State, k: Key, pc: Pc): State { s.(workers := s.workers[k := pc]) }

  function ReadMhc(s: State, k: Key): State {
    if k in s.seenMhcs then Goto(s, k, GotMhc(s.seenMhcs[k])) else Finish(s, k)
  }

  function ReadStream(s: State, k: Key, m: Mhc): State {
    if m.spec.stream !in s.seenStreams then Retry(s, k)
    else
      var status := s.seenStreams[m.spec.stream].status;
      if status.image == "" then Retry(s, k)
      else Goto(s, k, Built(m, Build(k, m.spec, status.image, status.channel)))
  }

  function ReadHosted(s: State, k: Key, m: Mhc, hc: HostedCluster): State {
    Goto(s, k, if k in s.hosted then Updating(m, hc, s.hosted[k].version) else Creating(m, hc))
  }

  function Written(s: State, k: Key, m: Mhc, hc: HostedCluster, lost: bool): State {
    var done := PutHosted(s, k, hc);
    if lost then Retry(done, k) else Goto(done, k, Reporting(m))
  }

  /** The status update carries the version of the copy that was read. */
  function Reported(s: State, k: Key, m: Mhc, lost: bool): State {
    if k in s.mhcs && s.mhcs[k].version == m.version then
      var done := PutMhc(s, k, s.mhcs[k].spec);
      if lost then Retry(done, k) else Finish(done, k)
    else Retry(s, k)
  }

  function Advance(s: State, k: Key, outcome: Outcome): State
    requires k in s.workers
  {
    if outcome.Failed? then Retry(s, k)
    else
      match s.workers[k]
      case Reading => if outcome.Lost? then Retry(s, k) else ReadMhc(s, k)
      case GotMhc(m) => if outcome.Lost? then Retry(s, k) else ReadStream(s, k, m)
      case Built(m, hc) => if outcome.Lost? then Retry(s, k) else ReadHosted(s, k, m, hc)
      case Creating(m, hc) => if k in s.hosted then Retry(s, k) else Written(s, k, m, hc, outcome.Lost?)
      case Updating(m, hc, version) =>
        if k in s.hosted && s.hosted[k].version == version then Written(s, k, m, hc, outcome.Lost?) else Retry(s, k)
      case Reporting(m) => Reported(s, k, m, outcome.Lost?)
  }

  // One resolution.

  /** The status a resolution writes: all three fields on success, none of them on failure. */
  function Resolved(copy: Stream, service: Cincinnati.Service): StreamStatus {
    match Cincinnati.Resolve(copy.spec.target, copy.spec.group, copy.spec.arch, service)
    case Success(r) => StreamStatus(r.image, r.version, r.channel)
    case Failure(_) => copy.status
  }

  function Resolve(s: State, id: nat, service: Cincinnati.Service, outcome: Outcome): State
    requires id in s.resolvers
  {
    var n, copy := s.resolvers[id].name, s.resolvers[id].copy;
    var done := s.(resolvers := s.resolvers - {id});
    if !outcome.Failed? && n in s.streams && s.streams[n].version == copy.version then
      PutStream(done, n, s.streams[n].spec, Resolved(copy, service))
    else done
  }

  function Move(s: State, a: Action): State
    requires Enabled(s, a)
  {
    match a
    case WriteMhc(k, spec) => if spec.Some? then PutMhc(s, k, spec.value) else DropMhc(s, k)
    case WriteStream(n, spec) => PutStream(s, n, spec, if n in s.streams then s.streams[n].status else UNRESOLVED)
    case SeeMhc(k, m) => Cached(s, k, m)
    case SeeStream(n, x) => CachedStream(s, n, x)
    case NotifyMhc(k) => s.(mhcEvents := s.mhcEvents - {k}, dirty := s.dirty + {k})
    case NotifyStream(n) => s.(streamEvents := s.streamEvents - {n}, dirty := s.dirty + Mapped(s, n))
    case Expire(k) => s.(delayed := s.delayed - {k}, dirty := s.dirty + {k})
    case Take(k) => s.(dirty := s.dirty - {k}, workers := s.workers[k := Reading])
    case Step(k, outcome) => Advance(s, k, outcome)
    case BeginResolve(id, n) => s.(resolvers := s.resolvers[id := Resolver(n, s.seenStreams[n])])
    case FinishResolve(id, service, outcome) => Resolve(s, id, service, outcome)
  }

  predicate ValidRun(s: State, run: seq<Action>)
    decreases |run|
  {
    run == [] || (Enabled(s, run[0]) && ValidRun(Move(s, run[0]), run[1..]))
  }

  function Run(s: State, run: seq<Action>): State
    requires ValidRun(s, run)
    decreases |run|
  {
    if run == [] then s else Run(Move(s, run[0]), run[1..])
  }
}
