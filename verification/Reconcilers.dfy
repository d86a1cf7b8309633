/**
  The reconcilers themselves (internal/controller/hostedcluster_controller.go and
  internal/controller/versionstream_controller.go): client calls with early returns. Each is
  proved to do exactly what the state machine does when its worker runs undisturbed,
  whatever each call's fate.
 */
module Reconcilers {
  import opened Wrappers
  import opened HostedClusters
  import opened Controllers
  import Cincinnati

  datatype Error = NotFound | Conflict | Unavailable

  /** What a reconciliation asks of the queue: nothing, another pass after a back-off for an
      error, or another pass after so many seconds. */
  datatype Verdict = Done | Backoff | After(seconds: nat)

  /** What the first two calls lead to. */
  datatype Prepared = Ready(m: Mhc, hc: HostedCluster) | Ended(verdict: Verdict)

  /** The manager's client: reads of MHCs and streams go to the cache, the rest to the server. */
  class Client {
    var state: State

    constructor (s: State)
      ensures state == s
    {
      state := s;
    }

    method GetMhc(k: Key, outcome: Outcome) returns (r: Result<Mhc, Error>)
      ensures r == if outcome != Answered then Failure(Unavailable)
                   else if k in state.seenMhcs then Success(state.seenMhcs[k]) else Failure(NotFound)
    {
      if outcome != Answered {
        return Failure(Unavailable);
      }
      r := if k in state.seenMhcs then Success(state.seenMhcs[k]) else Failure(NotFound);
    }

    method GetStream(n: string, outcome: Outcome) returns (r: Result<Stream, Error>)
      ensures r == if outcome != Answered then Failure(Unavailable)
                   else if n in state.seenStreams then Success(state.seenStreams[n]) else Failure(NotFound)
    {
      if outcome != Answered {
        return Failure(Unavailable);
      }
      r := if n in state.seenStreams then Success(state.seenStreams[n]) else Failure(NotFound);
    }

    method GetHosted(k: Key, outcome: Outcome) returns (r: Result<Stored, Error>)
      ensures r == if outcome != Answered then Failure(Unavailable)
                   else if k in state.hosted then Success(state.hosted[k]) else Failure(NotFound)
    {
      if outcome != Answered {
        return Failure(Unavailable);
      }
      r := if k in state.hosted then Success(state.hosted[k]) else Failure(NotFound);
    }

    method CreateHosted(hc: HostedCluster, outcome: Outcome) returns (ok: bool)
      modifies this
      ensures state == if outcome.Failed? || hc.key in old(state).hosted then old(state)
                else PutHosted(old(state), hc.key, hc)
      ensures ok <==> outcome.Answered? && hc.key !in old(state).hosted
    {
      if outcome.Failed? || hc.key in state.hosted {
        return false;
      }
      state := PutHosted(state, hc.key, hc);
      ok := outcome.Answered?;
    }

    method UpdateHosted(hc: HostedCluster, version: nat, outcome: Outcome) returns (ok: bool)
      modifies this
      ensures var applied := !outcome.Failed? && hc.key in old(state).hosted
                && old(state).hosted[hc.key].version == version;
              && state == (if applied then PutHosted(old(state), hc.key, hc) else old(state))
              && (ok <==> applied && outcome.Answered?)
    {
      if outcome.Failed? || hc.key !in state.hosted || state.hosted[hc.key].version != version {
        return false;
      }
      state := PutHosted(state, hc.key, hc);
      ok := outcome.Answered?;
    }

    method UpdateMhcStatus(k: Key, version: nat, outcome: Outcome) returns (ok: bool)
      modifies this
      ensures var applied := !outcome.Failed? && k in old(state).mhcs && old(state).mhcs[k].version == version;
              && state == (if applied then PutMhc(old(state), k, old(state).mhcs[k].spec) else old(state))
              && (ok <==> applied && outcome.Answered?)
    {
      if outcome.Failed? || k !in state.mhcs || state.mhcs[k].version != version {
        return false;
      }
      state := PutMhc(state, k, state.mhcs[k].spec);
      ok := outcome.Answered?;
    }

    method UpdateStreamStatus(n: string, status: StreamStatus, version: nat, outcome: Outcome) returns (ok: bool)
      modifies this
      ensures var applied := !outcome.Failed? && n in old(state).streams && old(state).streams[n].version == version;
              && state == (if applied then PutStream(old(state), n, old(state).streams[n].spec, status) else old(state))
              && (ok <==> applied && outcome.Answered?)
    {
      if outcome.Failed? || n !in state.streams || state.streams[n].version != version {
        return false;
      }
      state := PutStream(state, n, state.streams[n].spec, status);
      ok := outcome.Answered?;
    }
  }

  // The machine's worker, run undisturbed.

  function Drive(s: State, k: Key, script: seq<Outcome>): State
    decreases |script|
  {
    if k !in s.workers || script == [] then s else Drive(Advance(s, k, script[0]), k, script[1..])
  }

  function Close(s: State, k: Key, verdict: Verdict): State {
    if verdict.Done? then Finish(s, k) else Retry(s, k)
  }

  function DriveActions(s: State, k: Key, script: seq<Outcome>): seq<Action>
    decreases |script|
  {
    if k !in s.workers || script == [] then []
    else [Step(k, script[0])] + DriveActions(Advance(s, k, script[0]), k, script[1..])
  }

  /** So what is proved of all runs holds of the reconcilers as called here. */
  lemma {:induction false} DriveIsARun(s: State, k: Key, script: seq<Outcome>)
    ensures ValidRun(s, DriveActions(s, k, script)) && Run(s, DriveActions(s, k, script)) == Drive(s, k, script)
    decreases |script|
  {
    if k in s.workers && script != [] {
      DriveIsARun(Advance(s, k, script[0]), k, script[1..]);
      assert DriveActions(s, k, script)[1..] == DriveActions(Advance(s, k, script[0]), k, script[1..]);
    }
  }

  /** The worker's place has no bearing on how its reconciliation is closed or goes on. */
  lemma PlaceIsForgotten(s: State, k: Key, pc: Pc, next: Pc)
    ensures Finish(Goto(s, k, pc), k) == Finish(s, k)
    ensures Retry(Goto(s, k, pc), k) == Retry(s, k)
    ensures Goto(Goto(s, k, pc), k, next) == Goto(s, k, next)
  {
    assert Goto(s, k, pc).workers - {k} == s.workers - {k};
  }

  /** A step that ends the reconciliation. */
  lemma DriveEnds(s: State, k: Key, pc: Pc, script: seq<Outcome>, to: State, verdict: Verdict)
    requires script != [] && Advance(Goto(s, k, pc), k, script[0]) == Close(Goto(to, k, pc), k, verdict)
    ensures Drive(Goto(s, k, pc), k, script) == Close(to, k, verdict)
  {
    PlaceIsForgotten(to, k, pc, pc);
  }

  /** A step that moves on. */
  lemma DriveOn(s: State, k: Key, pc: Pc, script: seq<Outcome>, to: State, next: Pc)
    requires script != [] && Advance(Goto(s, k, pc), k, script[0]) == Goto(Goto(to, k, pc), k, next)
    ensures Drive(Goto(s, k, pc), k, script) == Drive(Goto(to, k, next), k, script[1..])
  {
    PlaceIsForgotten(to, k, pc, next);
  }

  lemma RetryEnds(s: State, k: Key, pc: Pc, script: seq<Outcome>)
    requires script != [] && Advance(Goto(s, k, pc), k, script[0]) == Retry(Goto(s, k, pc), k)
    ensures Drive(Goto(s, k, pc), k, script) == Retry(s, k)
  {
    DriveEnds(s, k, pc, script, s, Backoff);
  }

  lemma MhcStep(s: State, k: Key, script: seq<Outcome>)
    requires script != []
    ensures Drive(Goto(s, k, Reading), k, script)
         == if script[0] != Answered then Retry(s, k)
            else if k in s.seenMhcs then Drive(Goto(s, k, GotMhc(s.seenMhcs[k])), k, script[1..])
            else Finish(s, k)
  {
    var g := Goto(s, k, Reading);
    if script[0] != Answered {
      assert Advance(g, k, script[0]) == Retry(g, k);
      RetryEnds(s, k, Reading, script);
    } else if k in s.seenMhcs {
      assert Advance(g, k, script[0]) == Goto(g, k, GotMhc(s.seenMhcs[k]));
      DriveOn(s, k, Reading, script, s, GotMhc(s.seenMhcs[k]));
    } else {
      assert Advance(g, k, script[0]) == Finish(g, k);
      DriveEnds(s, k, Reading, script, s, Done);
    }
  }

  /** What the second call leads to build, if anything. */
  function ToBuild(s: State, k: Key, m: Mhc): Option<HostedCluster> {
    if m.spec.stream in s.seenStreams && s.seenStreams[m.spec.stream].status.image != "" then
      var status := s.seenStreams[m.spec.stream].status;
      Some(Build(k, m.spec, status.image, status.channel))
    else None
  }

  lemma StreamStep(s: State, k: Key, m: Mhc, script: seq<Outcome>)
    requires script != []
    ensures Drive(Goto(s, k, GotMhc(m)), k, script)
         == if script[0] == Answered && ToBuild(s, k, m).Some? then
              Drive(Goto(s, k, Built(m, ToBuild(s, k, m).value)), k, script[1..])
            else Retry(s, k)
  {
    var g := Goto(s, k, GotMhc(m));
    if script[0] == Answered && ToBuild(s, k, m).Some? {
      assert Advance(g, k, script[0]) == Goto(g, k, Built(m, ToBuild(s, k, m).value));
      DriveOn(s, k, GotMhc(m), script, s, Built(m, ToBuild(s, k, m).value));
    } else {
      assert Advance(g, k, script[0]) == Retry(g, k);
      RetryEnds(s, k, GotMhc(m), script);
    }
  }

  function WritingPc(m: Mhc, hc: HostedCluster, existing: Option<nat>): Pc {
    if existing.Some? then Updating(m, hc, existing.value) else Creating(m, hc)
  }

  function Existing(s: State, k: Key): Option<nat> { if k in s.hosted then Some(s.hosted[k].version) else None }

  lemma HostedStep(s: State, k: Key, m: Mhc, hc: HostedCluster, script: seq<Outcome>)
    requires script != []
    ensures Drive(Goto(s, k, Built(m, hc)), k, script)
         == if script[0] != Answered then Retry(s, k)
            else Drive(Goto(s, k, WritingPc(m, hc, Existing(s, k))), k, script[1..])
  {
    var g := Goto(s, k, Built(m, hc));
    if script[0] != Answered {
      assert Advance(g, k, script[0]) == Retry(g, k);
      RetryEnds(s, k, Built(m, hc), script);
    } else {
      assert Advance(g, k, script[0]) == Goto(g, k, WritingPc(m, hc, Existing(s, k)));
      DriveOn(s, k, Built(m, hc), script, s, WritingPc(m, hc, Existing(s, k)));
    }
  }

  predicate Accepted(s: State, k: Key, existing: Option<nat>) {
    if existing.Some? then k in s.hosted && s.hosted[k].version == existing.value else k !in s.hosted
  }

  lemma WriteStep(s: State, k: Key, m: Mhc, hc: HostedCluster, existing: Option<nat>, script: seq<Outcome>)
    requires script != []
    ensures Drive(Goto(s, k, WritingPc(m, hc, existing)), k, script)
         == if script[0] == Failed || !Accepted(s, k, existing) then Retry(s, k)
            else if script[0] == Lost then Retry(PutHosted(s, k, hc), k)
            else Drive(Goto(PutHosted(s, k, hc), k, Reporting(m)), k, script[1..])
  {
    var pc := WritingPc(m, hc, existing);
    var g := Goto(s, k, pc);
    var done := PutHosted(s, k, hc);
    assert PutHosted(g, k, hc) == Goto(done, k, pc);
    if script[0] == Failed || !Accepted(s, k, existing) {
      assert Advance(g, k, script[0]) == Retry(g, k);
      RetryEnds(s, k, pc, script);
    } else {
      assert Advance(g, k, script[0]) == Written(g, k, m, hc, script[0].Lost?);
      if script[0] == Lost {
        DriveEnds(s, k, pc, script, done, Backoff);
      } else {
        DriveOn(s, k, pc, script, done, Reporting(m));
      }
    }
  }

  lemma ReportStep(s: State, k: Key, m: Mhc, script: seq<Outcome>)
    requires script != []
    ensures Drive(Goto(s, k, Reporting(m)), k, script)
         == if script[0] == Failed || k !in s.mhcs || s.mhcs[k].version != m.version then Retry(s, k)
            else Close(PutMhc(s, k, s.mhcs[k].spec), k, if script[0] == Lost then Backoff else Done)
  {
    var g := Goto(s, k, Reporting(m));
    if script[0] == Failed || k !in s.mhcs || s.mhcs[k].version != m.version {
      assert Advance(g, k, script[0]) == Retry(g, k);
      RetryEnds(s, k, Reporting(m), script);
    } else {
      var done := PutMhc(s, k, s.mhcs[k].spec);
      assert PutMhc(g, k, s.mhcs[k].spec) == Goto(done, k, Reporting(m));
      assert Advance(g, k, script[0]) == Close(Goto(done, k, Reporting(m)), k, if script[0] == Lost then Backoff
                                               else Done);
      DriveEnds(s, k, Reporting(m), script, done, if script[0] == Lost then Backoff else Done);
    }
  }

  class HostedClusterReconciler {
    const client: Client

    constructor (client: Client)
      ensures this.client == client
    {
      this.client := client;
    }

    /** The clusters to queue when a stream changes, from the cached list in any order. */
    method MapVersionStream(n: string, listed: seq<Key>) returns (requests: seq<Key>)
      requires forall k :: k in listed <==> k in client.state.seenMhcs
      ensures forall k :: k in requests <==> k in Mapped(client.state, n)
      ensures |requests| <= |listed|
    {
      requests := [];
      for i := 0 to |listed|
        invariant forall k :: k in requests <==> k in listed[..i] && k in Mapped(client.state, n)
        invariant |requests| <= i
      {
        assert listed[i] in listed;
        if client.state.seenMhcs[listed[i]].spec.stream == n {
          requests := requests + [listed[i]];
        }
      }
      assert listed[..|listed|] == listed;
    }

    /** The last two calls: the write, and the report of its success. */
    method Write(k: Key, m: Mhc, hc: HostedCluster, existing: Option<nat>, script: seq<Outcome>)
      returns (verdict: Verdict)
      requires hc.key == k && |script| >= 2
      modifies client
      ensures Close(client.state, k, verdict) == Drive(Goto(old(client.state), k, WritingPc(m, hc, existing)), k,
                                                       script)
      ensures verdict == Done || verdict == Backoff
      ensures verdict == Done <==>
                && script[0] == Answered && script[1] == Answered && Accepted(old(client.state), k, existing)
                && k in old(client.state).mhcs && old(client.state).mhcs[k].version == m.version
    {
      WriteStep(client.state, k, m, hc, existing, script);
      var ok: bool;
      if existing.None? {
        ok := client.CreateHosted(hc, script[0]);
      } else {
        ok := client.UpdateHosted(hc, existing.value, script[0]);
      }
      if !ok {
        return Backoff;
      }
      ReportStep(client.state, k, m, script[1..]);
      ok := client.UpdateMhcStatus(k, m.version, script[1]);
      verdict := if ok then Done else Backoff;
    }

    /** The last three: look for the HostedCluster, and create or update it. */
    method Install(k: Key, m: Mhc, hc: HostedCluster, script: seq<Outcome>) returns (verdict: Verdict)
      requires hc.key == k && |script| >= 3
      modifies client
      ensures Close(client.state, k, verdict) == Drive(Goto(old(client.state), k, Built(m, hc)), k, script)
      ensures verdict == Done || verdict == Backoff
      ensures verdict == Done <==>
                && (forall i :: 0 <= i < 3 ==> script[i] == Answered)
                && k in old(client.state).mhcs && old(client.state).mhcs[k].version == m.version
    {
      HostedStep(client.state, k, m, hc, script);
      var existing := client.GetHosted(k, script[0]);
      if existing.Failure? && existing.error != NotFound {
        return Backoff;
      }
      verdict := Write(k, m, hc, if existing.Success? then Some(existing.value.version) else None, script[1..]);
    }

    /** Of the passes that end before a write, one for a deleted cluster is done with, one whose
        stream is not resolved yet is repeated after ten seconds, and all others back off. */
    function EarlyEnd(s: State, k: Key, script: seq<Outcome>): Verdict
      requires |script| >= 2
    {
      if script[0] != Answered then Backoff
      else if k !in s.seenMhcs then Done
      else if script[1] != Answered || s.seenMhcs[k].spec.stream !in s.seenStreams then Backoff
      else After(10)
    }

    /** The first two calls: the HostedCluster to write, or how the pass ends without one. */
    method Prepare(k: Key, script: seq<Outcome>) returns (r: Prepared)
      requires |script| >= 2
      ensures r.Ready? ==> r.hc.key == k
      ensures r.Ready? ==>
                Drive(Goto(client.state, k, Reading), k, script)
                    == Drive(Goto(client.state, k, Built(r.m, r.hc)), k, script[2..])
      ensures r.Ended? ==> Drive(Goto(client.state, k, Reading), k, script) == Close(client.state, k, r.verdict)
      ensures r.Ready? <==>
                && script[0] == Answered && script[1] == Answered && k in client.state.seenMhcs
                && client.state.seenMhcs[k].spec.stream in client.state.seenStreams
                && client.state.seenStreams[client.state.seenMhcs[k].spec.stream].status.image != ""
      ensures r.Ready? ==> k in client.state.seenMhcs && r.m == client.state.seenMhcs[k]
      ensures r.Ended? ==> r.verdict == EarlyEnd(client.state, k, script)
    {
      MhcStep(client.state, k, script);
      var mhc := client.GetMhc(k, script[0]);
      if mhc.Failure? {
        return Ended(if mhc.error == NotFound then Done else Backoff);
      }
      var m := mhc.value;
      StreamStep(client.state, k, m, script[1..]);
      var stream := client.GetStream(m.spec.stream, script[1]);
      if stream.Failure? {
        return Ended(Backoff);
      }
      if stream.value.status.image == "" {
        return Ended(After(10));
      }
      var status := stream.value.status;
      var obj := new ManagedHostedCluster(k, m.spec);
      var hc := BuildHostedCluster(obj, status.image, status.channel);
      assert script[1..][1..] == script[2..];
      r := Ready(m, hc);
    }

    method Reconcile(k: Key, script: seq<Outcome>) returns (verdict: Verdict)
      requires |script| >= 5
      modifies client
      ensures Close(client.state, k, verdict) == Drive(Goto(old(client.state), k, Reading), k, script)
      ensures verdict.After? ==> verdict.seconds == 10
      ensures verdict.After? <==>
                && script[0] == Answered && script[1] == Answered && k in old(client.state).seenMhcs
                && old(client.state).seenMhcs[k].spec.stream in old(client.state).seenStreams
                && old(client.state).seenStreams[old(client.state).seenMhcs[k].spec.stream].status.image == ""
      ensures verdict == Done <==>
                && script[0] == Answered
                && (k in old(client.state).seenMhcs ==>
                      && (forall i :: 1 <= i < 5 ==> script[i] == Answered)
                      && var m := old(client.state).seenMhcs[k];
                      && m.spec.stream in old(client.state).seenStreams
                      && old(client.state).seenStreams[m.spec.stream].status.image != ""
                      && k in old(client.state).mhcs && old(client.state).mhcs[k].version == m.version)
    {
      var prepared := Prepare(k, script);
      if prepared.Ended? {
        return prepared.verdict;
      }
      verdict := Install(k, prepared.m, prepared.hc, script[2..]);
    }
  }

  class VersionStream {
    const spec: StreamSpec
    const version: nat
    var image: string
    var resolvedVersion: string
    var channel: string

    constructor (copy: Stream)
      ensures spec == copy.spec && version == copy.version && Status() == copy.status
    {
      spec, version := copy.spec, copy.version;
      image, resolvedVersion, channel := copy.status.image, copy.status.version, copy.status.channel;
    }

    function Status(): StreamStatus
      reads this
    {
      StreamStatus(image, resolvedVersion, channel)
    }
  }

  class VersionStreamReconciler {
    const client: Client

    constructor (client: Client)
      ensures this.client == client
    {
      this.client := client;
    }

    /** What the machine does for one pass: nothing if the stream cannot be read, else a
        resolution of the copy that was read. */
    ghost function Passed(s: State, id: nat, n: string, service: Cincinnati.Service, script: seq<Outcome>): State
      requires id !in s.resolvers && |script| >= 2
    {
      if script[0] != Answered || n !in s.seenStreams then s
      else Resolve(Move(s, BeginResolve(id, n)), id, service, script[1])
    }

    /** Only a stream that is gone is not looked at again: errors back off, a failed resolution
        is repeated after one minute and a successful one after five. */
    method Reconcile(n: string, service: Cincinnati.Service, script: seq<Outcome>) returns (verdict: Verdict)
      requires |script| >= 2
      modifies client
      ensures forall id :: id !in old(client.state).resolvers ==>
                Passed(old(client.state), id, n, service, script) == client.state
      ensures verdict == Done <==> script[0] == Answered && n !in old(client.state).seenStreams
      ensures verdict.After? <==>
                && script[0] == Answered && script[1] == Answered && n in old(client.state).seenStreams
                && n in old(client.state).streams
                && old(client.state).streams[n].version == old(client.state).seenStreams[n].version
      ensures verdict.After? ==>
                && n in old(client.state).seenStreams
                && var spec := old(client.state).seenStreams[n].spec;
                   verdict.seconds == if Cincinnati.Resolve(spec.target, spec.group, spec.arch, service).Success?
                                      then 300 else 60
    {
      ghost var s := client.state;
      var got := client.GetStream(n, script[0]);
      if got.Failure? {
        return if got.error == NotFound then Done else Backoff;
      }
      var vs := new VersionStream(got.value);
      var resolution := Cincinnati.ResolveVersion(vs.spec.target, vs.spec.group, vs.spec.arch, service);
      if resolution.Success? {
        vs.image := resolution.value.image;
        vs.resolvedVersion := resolution.value.version;
        vs.channel := resolution.value.channel;
      }
      assert vs.Status() == Resolved(got.value, service);
      var ok := client.UpdateStreamStatus(n, vs.Status(), vs.version, script[1]);
      verdict := if !ok then Backoff else if resolution.Failure? then After(60) else After(300);
      forall id | id !in s.resolvers
        ensures Passed(s, id, n, service, script) == client.state
      {
        assert s.resolvers[id := Resolver(n, got.value)] - {id} == s.resolvers;
      }
    }
  }
}
