/**
  Resolution of a major.minor version to a release (internal/cincinnati/client.go,
  ResolveVersion): a scan for the highest matching node of the update graph.
 */
module Cincinnati {
  import opened Wrappers
  import opened VersionOrder

  const DEFAULT_GROUP := "stable"
  const DEFAULT_ARCH := "amd64"

  datatype Node = Node(version: string, payload: string)

  /** What a resolution yields. */
  datatype Resolution = Resolution(image: string, version: string, channel: string)

  datatype ResolveError =
    | VersionRequired
    | FetchFailed(channel: string)
    | NoMatch(channel: string)
    | NoPayload(version: string)

  /** The update service: the graph's nodes by channel and architecture, or a failed fetch. */
  type Service = (string, string) -> Option<seq<Node>>

  function DeriveChannel(version: string, group: string): string { group + "-" + version }

  function OrDefault(s: string, default: string): string { if s == "" then default else s }

  predicate Matches(n: Node, version: string) { version + "." <= n.version }

  function Better(best: Option<Node>, n: Node, version: string): Option<Node> {
    if Matches(n, version) && (best.None? || Compare(n.version, best.value.version) > 0) then Some(n) else best
  }

  /** The node the scan holds after these nodes. */
  function Best(nodes: seq<Node>, version: string): Option<Node> {
    if nodes == [] then None
    else Better(Best(nodes[..|nodes| - 1], version), nodes[|nodes| - 1], version)
  }

  function Resolve(version: string, group: string, arch: string, service: Service): Result<Resolution, ResolveError> {
    if version == "" then Failure(VersionRequired)
    else
      var channel := DeriveChannel(version, OrDefault(group, DEFAULT_GROUP));
      match service(channel, OrDefault(arch, DEFAULT_ARCH))
      case None => Failure(FetchFailed(channel))
      case Some(nodes) =>
        match Best(nodes, version)
        case None => Failure(NoMatch(channel))
        case Some(best) =>
          if best.payload == "" then Failure(NoPayload(best.version))
          else Success(Resolution(best.payload, best.version, channel))
  }

  method ResolveVersion(version: string, channelGroup: string, architecture: string, service: Service)
    returns (r: Result<Resolution, ResolveError>)
    ensures r == Resolve(version, channelGroup, architecture, service)
    ensures r.Success? ==> r.value.channel == (if channelGroup != "" then channelGroup else "stable") + "-" + version
  {
    if version == "" {
      return Failure(VersionRequired);
    }
    var group, arch := channelGroup, architecture;
    if group == "" {
      group := DEFAULT_GROUP;
    }
    if arch == "" {
      arch := DEFAULT_ARCH;
    }
    var channel := DeriveChannel(version, group);
    var graph := service(channel, arch);
    if graph.None? {
      return Failure(FetchFailed(channel));
    }
    var nodes := graph.value;
    var prefix := version + ".";
    var best: Option<Node> := None;
    for i := 0 to |nodes|
      invariant best == Best(nodes[..i], version)
    {
      assert nodes[..i + 1][..i] == nodes[..i];
      var n := nodes[i];
      if !(prefix <= n.version) {
        continue;
      }
      if best.None? {
        best := Some(n);
      } else {
        var c := CompareVersions(n.version, best.value.version);
        if c > 0 {
          best := Some(n);
        }
      }
    }
    assert nodes[..|nodes|] == nodes;
    if best.None? {
      return Failure(NoMatch(channel));
    }
    if best.value.payload == "" {
      return Failure(NoPayload(best.value.version));
    }
    r := Success(Resolution(best.value.payload, best.value.version, channel));
  }

  /** No comparison among the matching nodes overflows. */
  ghost predicate Comparable(nodes: seq<Node>, version: string) {
    forall i, j :: 0 <= i < |nodes| && 0 <= j < |nodes| && Matches(nodes[i], version) && Matches(nodes[j], version) ==>
      NoOverflow(Numbers(nodes[i].version), Numbers(nodes[j].version))
  }

  /** `n` is not above `best`. */
  ghost predicate AtMost(n: Node, best: Node) {
    Less(Numbers(n.version), Numbers(best.version)) || Same(Numbers(n.version), Numbers(best.version))
  }

  lemma AtMostItself(n: Node)
    ensures AtMost(n, n)
  {
  }

  lemma TrichotomyOf(v: string, w: string)
    ensures Less(Numbers(v), Numbers(w)) || Same(Numbers(v), Numbers(w)) || Less(Numbers(w), Numbers(v))
  {
    var a, b := Numbers(v), Numbers(w);
    if !Same(a, b) {
      FirstDifferenceExists(a, b);
      var k: nat :| AgreeBefore(a, b, k) && At(a, k) != At(b, k);
      AtFirstDifference(a, b, k);
      AtFirstDifference(b, a, k);
    }
  }

  /** The scan finds something exactly if some node matches. */
  lemma {:induction false} BestIsFound(nodes: seq<Node>, version: string)
    ensures Best(nodes, version).None? <==> forall i :: 0 <= i < |nodes| ==> !Matches(nodes[i], version)
    ensures Best(nodes, version).Some? ==>
              Best(nodes, version).value in nodes && Matches(Best(nodes, version).value, version)
  {
    if nodes != [] {
      var init := nodes[..|nodes| - 1];
      BestIsFound(init, version);
      assert forall i :: 0 <= i < |init| ==> init[i] == nodes[i];
    }
  }

  /** `nodes[i]` is the first of the highest nodes of the version. */
  ghost predicate Chosen(nodes: seq<Node>, version: string, i: nat) {
    && i < |nodes| && version + "." <= nodes[i].version
    && (forall k :: 0 <= k < |nodes| && version + "." <= nodes[k].version ==> AtMost(nodes[k], nodes[i]))
    && (forall k :: 0 <= k < i && version + "." <= nodes[k].version ==>
          Less(Numbers(nodes[k].version), Numbers(nodes[i].version)))
  }

  lemma HigherIsStrict(n: Node, best: Node, next: Node)
    requires AtMost(n, best) && Less(Numbers(best.version), Numbers(next.version))
    ensures Less(Numbers(n.version), Numbers(next.version))
  {
    LessIsTransitive(Numbers(n.version), Numbers(best.version), Numbers(next.version));
    if Same(Numbers(best.version), Numbers(next.version)) {
      SameMeansZero(Numbers(best.version), Numbers(next.version));
    }
  }

  /** One more node: the choice stays, or moves on to a strictly higher one. */
  lemma ChosenStep(nodes: seq<Node>, version: string, i: nat, next: Node)
    requires Chosen(nodes, version, i)
    ensures AtMost(next, nodes[i]) || !Matches(next, version) ==> Chosen(nodes + [next], version, i)
    ensures Matches(next, version) && Less(Numbers(nodes[i].version), Numbers(next.version)) ==>
              Chosen(nodes + [next], version, |nodes|)
  {
    if Matches(next, version) && Less(Numbers(nodes[i].version), Numbers(next.version)) {
      forall k | 0 <= k < |nodes| && version + "." <= nodes[k].version
        ensures Less(Numbers(nodes[k].version), Numbers(next.version))
      {
        HigherIsStrict(nodes[k], nodes[i], next);
      }
      AtMostItself(next);
    }
  }

  lemma FirstIsChosen(nodes: seq<Node>, version: string, next: Node)
    requires (forall k :: 0 <= k < |nodes| ==> !Matches(nodes[k], version)) && Matches(next, version)
    ensures Chosen(nodes + [next], version, |nodes|)
  {
    AtMostItself(next);
  }

  lemma {:induction false} BestIsChosen(nodes: seq<Node>, version: string) returns (i: nat)
    requires Comparable(nodes, version) && exists k :: 0 <= k < |nodes| && Matches(nodes[k], version)
    ensures Chosen(nodes, version, i) && Best(nodes, version) == Some(nodes[i])
  {
    var last := |nodes| - 1;
    var init, next := nodes[..last], nodes[last];
    assert nodes == init + [next];
    BestIsFound(init, version);
    if Best(init, version).None? {
      FirstIsChosen(init, version, next);
      i := last;
    } else {
      assert Comparable(init, version);
      var found: nat :| found < |init| && init[found] == Best(init, version).value;
      i := BestIsChosen(init, version);
      ChosenStep(init, version, i, next);
      if Matches(next, version) {
        SignIsRight(next.version, init[i].version);
        TrichotomyOf(next.version, init[i].version);
        if Compare(next.version, init[i].version) > 0 {
          i := last;
        }
      }
    }
  }

  lemma ChosenIsUnique(nodes: seq<Node>, version: string, i: nat, j: nat)
    requires Chosen(nodes, version, i) && Chosen(nodes, version, j)
    ensures i == j
  {
    if i != j {
      var lo, hi := if i < j then i else j, if i < j then j else i;
      assert Less(Numbers(nodes[lo].version), Numbers(nodes[hi].version)) && AtMost(nodes[hi], nodes[lo]);
      NeverLessThanItself(Numbers(nodes[hi].version));
      HigherIsStrict(nodes[hi], nodes[lo], nodes[hi]);
    }
  }

  /** So what it finds is a maximum among the matching nodes. */
  lemma BestIsMaximum(nodes: seq<Node>, version: string, k: nat)
    requires Comparable(nodes, version) && k < |nodes| && Matches(nodes[k], version)
    ensures Best(nodes, version).Some? && AtMost(nodes[k], Best(nodes, version).value)
  {
    var i := BestIsChosen(nodes, version);
  }

  /** Every successful resolution is a matching node of the channel's graph with a payload,
      and no matching node is above it. */
  lemma ResolutionIsHighest(version: string, group: string, arch: string, service: Service, n: Node)
    requires Resolve(version, group, arch, service).Success?
    ensures var r := Resolve(version, group, arch, service).value;
            var nodes := service(r.channel, if arch != "" then arch else "amd64");
            && r.channel == (if group != "" then group else "stable") + "-" + version
            && nodes.Some? && Node(r.version, r.image) in nodes.value
            && version + "." <= r.version && r.image != ""
            && (Comparable(nodes.value, version) && n in nodes.value && Matches(n, version) ==>
                  AtMost(n, Node(r.version, r.image)))
  {
    var r := Resolve(version, group, arch, service).value;
    var nodes := service(r.channel, if arch != "" then arch else "amd64").value;
    BestIsFound(nodes, version);
    if Comparable(nodes, version) && n in nodes && Matches(n, version) {
      var k :| 0 <= k < |nodes| && nodes[k] == n;
      BestIsMaximum(nodes, version, k);
    }
  }

  // Everything a resolution can come to, spelled out.

  /** What the scan finds where some node matches. */
  lemma MatchIsFound(nodes: seq<Node>, version: string) returns (i: nat)
    requires exists n :: n in nodes && version + "." <= n.version
    ensures i < |nodes| && version + "." <= nodes[i].version && Best(nodes, version) == Some(nodes[i])
    ensures Comparable(nodes, version) ==> Chosen(nodes, version, i)
  {
    var n :| n in nodes && Matches(n, version);
    var k: nat :| k < |nodes| && nodes[k] == n;
    BestIsFound(nodes, version);
    if Comparable(nodes, version) {
      i := BestIsChosen(nodes, version);
    } else {
      i :| i < |nodes| && nodes[i] == Best(nodes, version).value;
    }
  }

  /** A resolution asks for the channel and architecture it was given, or the stable channel and
      amd64; it succeeds exactly if the fetch does, some node is of the version, and the one chosen
      -- the first of the highest, unless a comparison overflows -- has a payload; every other end
      is the error that fits. */
  lemma ResolutionOutcomes(version: string, group: string, arch: string, service: Service)
    ensures var r := Resolve(version, group, arch, service);
            var channel := (if group != "" then group else "stable") + "-" + version;
            var answer := service(channel, if arch != "" then arch else "amd64");
            if version == "" then r == Failure(VersionRequired)
            else if answer == None then r == Failure(FetchFailed(channel))
            else if forall n :: n in answer.value ==> !(version + "." <= n.version) then r == Failure(NoMatch(channel))
            else
              exists i: nat ::
                && i < |answer.value| && version + "." <= answer.value[i].version
                && (Comparable(answer.value, version) ==> Chosen(answer.value, version, i))
                && var n := answer.value[i];
                   r == if n.payload == "" then Failure(NoPayload(n.version))
                        else Success(Resolution(n.payload, n.version, channel))
  {
    var channel := (if group != "" then group else "stable") + "-" + version;
    var answer := service(channel, if arch != "" then arch else "amd64");
    if version != "" && answer.Some? {
      BestIsFound(answer.value, version);
      if exists n :: n in answer.value && version + "." <= n.version {
        var i := MatchIsFound(answer.value, version);
      }
    }
  }

  /** Two answers with the same nodes in any order resolve to versions of the same rank. */
  lemma RankIgnoresOrder(nodes1: seq<Node>, nodes2: seq<Node>, version: string)
    requires forall n :: n in nodes1 <==> n in nodes2
    requires Comparable(nodes1, version)
    ensures Best(nodes1, version).Some? <==> Best(nodes2, version).Some?
    ensures Best(nodes1, version).Some? ==>
              Compare(Best(nodes1, version).value.version, Best(nodes2, version).value.version) == 0
  {
    BestIsFound(nodes1, version);
    BestIsFound(nodes2, version);
    SameNodesComparable(nodes1, nodes2, version);
    if Best(nodes1, version).Some? {
      var b1 := Best(nodes1, version).value;
      assert b1 in nodes2;
      var k2 :| 0 <= k2 < |nodes2| && nodes2[k2] == b1;
      BestIsMaximum(nodes2, version, k2);
      var b2 := Best(nodes2, version).value;
      assert b2 in nodes1;
      var k1 :| 0 <= k1 < |nodes1| && nodes1[k1] == b2;
      BestIsMaximum(nodes1, version, k1);
      LessIsTransitive(Numbers(b1.version), Numbers(b2.version), Numbers(b1.version));
      NeverLessThanItself(Numbers(b1.version));
      SignIsRightIff(b1.version, b2.version);
    }
  }

  lemma NeverLessThanItself(a: seq<int>)
    ensures !Less(a, a)
  {
  }

  lemma SameNodesComparable(nodes1: seq<Node>, nodes2: seq<Node>, version: string)
    requires forall n :: n in nodes2 ==> n in nodes1
    requires Comparable(nodes1, version)
    ensures Comparable(nodes2, version)
  {
    forall i, j | 0 <= i < |nodes2| && 0 <= j < |nodes2| && Matches(nodes2[i], version) && Matches(nodes2[j], version)
      ensures NoOverflow(Numbers(nodes2[i].version), Numbers(nodes2[j].version))
    {
      assert nodes2[i] in nodes1 && nodes2[j] in nodes1;
      var k :| 0 <= k < |nodes1| && nodes1[k] == nodes2[i];
      var l :| 0 <= l < |nodes1| && nodes1[l] == nodes2[j];
    }
  }
}
