/**
  What each request comes to, spelled out in the documents' own fields and in the parameters
  of the call (internal/apiserver/handlers.go): exactly when a Create, Update, Delete or Get
  run alone succeeds, and what is then stored and answered, for every fate of every call.
 */
module Effects {
  import opened Wrappers
  import opened DesireId
  import opened Desires
  import opened Placement
  import opened Protocol
  import opened Solo
  import opened Limits
  import opened Witnesses

  // The documents of one cluster, written out.

  function ClusterKey(namespace: string, name: string): string {
    "hyperkube-apiserver" + "/" + "hcp.gcp.hypershift.openshift.com" + "/" + "v1alpha1" + "/" + "managedhostedclusters"
    + "/" + namespace + "/" + name
  }

  function ClusterLoc(mc: MC, namespace: string, name: string): Loc { Loc(mc, Uuid(ClusterKey(namespace, name))) }

  function NamespaceKey(namespace: string): string {
    "hyperkube-apiserver" + "/" + "" + "/" + "v1" + "/" + "namespaces" + "/" + "" + "/" + namespace
  }

  function NamespaceLoc(mc: MC, namespace: string): Loc { Loc(mc, Uuid(NamespaceKey(namespace))) }

  function ClusterReference(namespace: string, name: string): ResourceReference {
    ResourceReference("hcp.gcp.hypershift.openshift.com", "v1alpha1", "managedhostedclusters", namespace, name)
  }

  lemma KeysAreWrittenOut(mc: MC, namespace: string, name: string)
    ensures Loc(mc, ClusterDocumentID(namespace, name)) == ClusterLoc(mc, namespace, name)
    ensures Loc(mc, NamespaceDocumentID(namespace)) == NamespaceLoc(mc, namespace)
    ensures ClusterTarget(namespace, name) == ClusterReference(namespace, name)
  {
  }

  ghost predicate Holds<T(!new)>(t: Table<T>, loc: Loc, v: T) {
    loc in t.docs && t.docs[loc].value == v
  }

  /** The two collections agree on every document but those at `locs`. */
  ghost predicate SameBut<T(!new)>(t1: Table<T>, t2: Table<T>, locs: set<Loc>) {
    forall loc :: loc !in locs ==> Lookup(t1.docs, loc) == Lookup(t2.docs, loc)
  }

  /** The first `n` calls are answered. */
  ghost predicate AllAnswered(script: seq<Input>, n: nat) {
    n <= |script| && forall k :: 0 <= k < n ==> script[k].outcome == Answered
  }

  lemma AnsweredTail(script: seq<Input>, n: nat)
    requires script != []
    ensures AllAnswered(script, n + 1) <==> script[0].outcome == Answered && AllAnswered(script[1..], n)
  {
    if AllAnswered(script[1..], n) && script[0].outcome == Answered {
      forall k | 0 <= k < n + 1
        ensures script[k].outcome == Answered
      {
        assert k > 0 ==> script[1..][k - 1] == script[k];
      }
    }
  }

  /** A call without an answer ends the request. */
  lemma Unanswered(w: World, q: Request, pc: Pc, script: seq<Input>)
    requires !pc.Finished? && Calls(pc) <= |script| && Scripted(script, w.quotas.Keys)
    requires script[0].outcome != Answered
    ensures RunAlone(w, q, pc, script).1 == Refused(Unavailable)
  {
    var (e, next) := Call(w, q, pc, script[0]);
    OneCall(w, q, pc, script, e, next);
  }

  // Create.

  lemma MappingEnds(w: World, q: Request, mc: MC, script: seq<Input>)
    requires |script| >= 1 && Scripted(script, w.quotas.Keys)
    ensures var (w', response) := RunAlone(w, q, WritingMapping(mc), script);
            && response == (if script[0].outcome == Answered then Done else Refused(Unavailable))
            && (response == Done ==> w' == Apply(w, PutMapping(q.MapId(), mc)))
  {
    var (e, next) := Call(w, q, WritingMapping(mc), script[0]);
    OneCall(w, q, WritingMapping(mc), script, e, next);
  }

  lemma PublishEnds(w: World, q: Request, mc: MC, script: seq<Input>)
    requires |script| >= 2 && Scripted(script, w.quotas.Keys)
    ensures var (w', response) := RunAlone(w, q, WritingRead(mc), script);
            && (response == Done <==> AllAnswered(script, 2) && q.At(mc) !in w.readDesires.docs)
            && (response == Done ==> w' == AfterPublish(w, q, mc))
            && response != Conflict && response != NoPlacement
  {
    if script[0].outcome != Answered {
      Unanswered(w, q, WritingRead(mc), script);
    } else if q.At(mc) in w.readDesires.docs {
      OneCall(w, q, WritingRead(mc), script, Nothing, Finished(Refused(AlreadyExists)));
    } else {
      var read := InsertRead(q.At(mc), TargetDesire(mc, q.clusterID, ClusterTarget(q.namespace, q.name)));
      OneCall(w, q, WritingRead(mc), script, read, WritingMapping(mc));
      assert script[1..][0] == script[1];
      MappingEnds(Apply(w, read), q, mc, script[1..]);
    }
  }

  lemma ApplyEnds(w: World, q: Request, mc: MC, script: seq<Input>)
    requires |script| >= 3 && Scripted(script, w.quotas.Keys)
    ensures var (w', response) := RunAlone(w, q, WritingApply(mc), script);
            && (response == Done <==> AllAnswered(script, 3) && q.At(mc) !in w.applyDesires.docs
                                      && q.At(mc) !in w.readDesires.docs)
            && (response == Done ==> w' == AfterPublish(Apply(w, InsertApply(q.At(mc), q.Desire(mc))), q, mc))
            && response != Conflict && response != NoPlacement
  {
    AnsweredTail(script, 2);
    if script[0].outcome != Answered {
      Unanswered(w, q, WritingApply(mc), script);
    } else if q.At(mc) in w.applyDesires.docs {
      OneCall(w, q, WritingApply(mc), script, Nothing, Finished(Refused(AlreadyExists)));
    } else {
      var insert := InsertApply(q.At(mc), q.Desire(mc));
      OneCall(w, q, WritingApply(mc), script, insert, WritingRead(mc));
      PublishEnds(Apply(w, insert), q, mc, script[1..]);
    }
  }

  function WithNamespace(w: World, q: Request, mc: MC): World {
    var loc := Loc(mc, NamespaceDocumentID(q.namespace));
    Apply(w, if loc in w.applyDesires.docs then Nothing else InsertApply(loc, NamespaceDesire(mc, q.namespace)))
  }

  lemma NamespaceEnds(w: World, q: Request, mc: MC, script: seq<Input>)
    requires |script| >= 4 && Scripted(script, w.quotas.Keys)
    ensures var (w', response) := RunAlone(w, q, WritingNamespace(mc), script);
            && (response == Done <==> AllAnswered(script, 4) && q.At(mc) !in w.applyDesires.docs
                                      && q.At(mc) !in w.readDesires.docs)
            && (response == Done ==>
                  w' == AfterPublish(Apply(WithNamespace(w, q, mc), InsertApply(q.At(mc), q.Desire(mc))), q, mc))
            && response != Conflict && response != NoPlacement
  {
    AnsweredTail(script, 3);
    NamespaceAndClusterIdsDiffer(q.namespace, q.namespace, q.name);
    var loc := Loc(mc, NamespaceDocumentID(q.namespace));
    var ns := if loc in w.applyDesires.docs then Nothing else InsertApply(loc, NamespaceDesire(mc, q.namespace));
    if script[0].outcome != Answered {
      Unanswered(w, q, WritingNamespace(mc), script);
    } else {
      OneCall(w, q, WritingNamespace(mc), script, ns, WritingApply(mc));
      ApplyEnds(WithNamespace(w, q, mc), q, mc, script[1..]);
    }
  }

  /** A Create past its check that is placed at `mc`. */
  lemma PlacedEnds(w: World, q: Request, mc: MC, script: seq<Input>)
    requires |script| >= 5 && Scripted(script, w.quotas.Keys)
    requires script[0].outcome == Answered && Choose(w.quotas, script[0].listing) == Some(mc)
    ensures var (w', response) := RunAlone(w, q, Allocating, script);
            && (response == Done <==> AllAnswered(script, 5) && q.At(mc) !in w.applyDesires.docs
                                      && q.At(mc) !in w.readDesires.docs)
            && (response == Done ==> w' == AfterCreate(w, q, mc))
            && response != Conflict && response != NoPlacement
  {
    AnsweredTail(script, 4);
    OneCall(w, q, Allocating, script, Effect.Allocate(mc), WritingNamespace(mc));
    NamespaceEnds(Apply(w, Effect.Allocate(mc)), q, mc, script[1..]);
  }

  /** Exactly when a Create succeeds. */
  ghost predicate CanCreate(w: World, namespace: string, name: string, script: seq<Input>, mc: MC)
    requires |script| >= 6 && Scripted(script, w.quotas.Keys)
  {
    && AllAnswered(script, 6) && namespace + ":" + name !in w.mappings
    && Choose(w.quotas, script[1].listing) == Some(mc)
    && ClusterLoc(mc, namespace, name) !in w.applyDesires.docs && ClusterLoc(mc, namespace, name) !in w.readDesires.docs
  }

  lemma CreateEnds(w: World, q: Request, script: seq<Input>)
    requires |script| >= 6 && Scripted(script, w.quotas.Keys)
    ensures var (w', response) := RunAlone(w, q, CheckMapping, script);
            var best := Choose(w.quotas, script[1].listing);
            && (response == Done <==> best.Some? && CanCreate(w, q.namespace, q.name, script, best.value))
            && (response == Done ==> w' == AfterCreate(w, q, best.value))
            && (response == Conflict <==> script[0].outcome == Answered && q.namespace + ":" + q.name in w.mappings)
            && (response == NoPlacement <==> AllAnswered(script, 2) && q.namespace + ":" + q.name !in w.mappings
                                             && best == None)
  {
    AnsweredTail(script, 5);
    AnsweredTail(script, 1);
    assert script[1..][0] == script[1];
    var best := Choose(w.quotas, script[1].listing);
    if best.Some? {
      KeysAreWrittenOut(best.value, q.namespace, q.name);
    }
    if script[0].outcome != Answered {
      Unanswered(w, q, CheckMapping, script);
    } else if q.MapId() in w.mappings {
      OneCall(w, q, CheckMapping, script, Nothing, Finished(Conflict));
    } else {
      OneCall(w, q, CheckMapping, script, Nothing, Allocating);
      AnsweredTail(script[1..], 0);
      AnsweredTail(script[1..], 4);
      if script[1].outcome != Answered {
        Unanswered(w, q, Allocating, script[1..]);
      } else if best.Some? {
        PlacedEnds(w, q, best.value, script[1..]);
      } else {
        OneCall(w, q, Allocating, script[1..], Nothing, Finished(NoPlacement));
      }
    }
  }

  /** What a successful Create has written, and nothing else. */
  ghost predicate CreateWrites(w: World, w': World, namespace: string, name: string, clusterID: string, body: string,
                               mc: MC)
  {
    var loc := ClusterLoc(mc, namespace, name);
    var nsLoc := NamespaceLoc(mc, namespace);
    var target := ClusterReference(namespace, name);
    && mc in w.quotas && w'.quotas == w.quotas[mc := Quota(w.quotas[mc].capacity, w.quotas[mc].load + 1)]
    && w'.mappings == w.mappings[namespace + ":" + name := mc]
    && Holds(w'.applyDesires, loc,
             ApplyDesire(mc, clusterID, target, Some(Cluster(namespace, name, clusterID, body))))
    && Holds(w'.readDesires, loc, TargetDesire(mc, clusterID, target))
    && (if nsLoc in w.applyDesires.docs then Lookup(w'.applyDesires.docs, nsLoc) == Lookup(w.applyDesires.docs, nsLoc)
        else Holds(w'.applyDesires, nsLoc, ApplyDesire(mc, "", ResourceReference("", "v1", "namespaces", "", namespace),
                                                       Some(Namespace(namespace)))))
    && SameBut(w.applyDesires, w'.applyDesires, {loc, nsLoc}) && SameBut(w.readDesires, w'.readDesires, {loc})
    && w'.deleteDesires == w.deleteDesires
  }

  lemma CreateWritesTheRequest(w: World, namespace: string, name: string, clusterID: string, body: string, mc: MC)
    requires mc in w.quotas
    ensures CreateWrites(w, AfterCreate(w, Request(Kind.Create, namespace, name, clusterID, body), mc),
                         namespace, name, clusterID, body, mc)
  {
    var q := Request(Kind.Create, namespace, name, clusterID, body);
    KeysAreWrittenOut(mc, namespace, name);
    NamespaceAndClusterIdsDiffer(namespace, namespace, name);
  }

  /** A Create succeeds exactly when all its calls are answered, the name is unmapped, some listed
      management cluster has room and the cluster's documents are not on the one chosen; and then
      the submitted body and cluster id are what is stored there. */
  lemma CreateStoresTheRequest(w: World, namespace: string, name: string, clusterID: string, body: string,
                               script: seq<Input>)
    requires |script| >= 6 && Scripted(script, w.quotas.Keys)
    ensures var (w', response) := RunAlone(w, Request(Kind.Create, namespace, name, clusterID, body), CheckMapping,
                                           script);
            && (response == Done <==> exists mc :: CanCreate(w, namespace, name, script, mc))
            && (forall mc :: response == Done && CanCreate(w, namespace, name, script, mc) ==>
                  CreateWrites(w, w', namespace, name, clusterID, body, mc))
            && (response == Conflict <==> script[0].outcome == Answered && namespace + ":" + name in w.mappings)
            && (response == NoPlacement <==>
                  && AllAnswered(script, 2) && namespace + ":" + name !in w.mappings
                  && forall mc :: mc in w.quotas ==> w.quotas[mc].load >= w.quotas[mc].capacity)
  {
    var q := Request(Kind.Create, namespace, name, clusterID, body);
    CreateEnds(w, q, script);
    ChooseIsLeastLoaded(w.quotas, script[1].listing);
    var best := Choose(w.quotas, script[1].listing);
    if best.Some? {
      assert best.value in w.quotas;
      CreateWritesTheRequest(w, namespace, name, clusterID, body, best.value);
    }
  }

  // Update.

  /** Exactly when an Update succeeds. */
  ghost predicate CanUpdate(w: World, namespace: string, name: string, script: seq<Input>) {
    && AllAnswered(script, 3) && namespace + ":" + name in w.mappings
    && ClusterLoc(w.mappings[namespace + ":" + name], namespace, name) in w.applyDesires.docs
  }

  lemma UpdateEnds(w: World, q: Request, script: seq<Input>)
    requires |script| >= 3 && Scripted(script, w.quotas.Keys)
    ensures var (w', response) := RunAlone(w, q, UpdateLookup, script);
            && (response == Done <==> CanUpdate(w, q.namespace, q.name, script))
            && (response == Done ==>
                  && q.At(w.mappings[q.MapId()]) in w.applyDesires.docs
                  && var loc := q.At(w.mappings[q.MapId()]);
                     var d := w.applyDesires.docs[loc];
                     w' == Apply(w, ReplaceApply(loc, d, d.value.(content := Some(q.Object())))))
            && (response != Done && AllAnswered(script, 3) ==> response == Refused(NotFound) && w' == w)
  {
    assert script[1..][0] == script[1] && script[1..][1..] == script[2..] && script[2..][0] == script[2];
    if script[0].outcome != Answered {
      Unanswered(w, q, UpdateLookup, script);
    } else if q.MapId() !in w.mappings {
      OneCall(w, q, UpdateLookup, script, Nothing, Finished(Refused(NotFound)));
    } else {
      var mc := w.mappings[q.MapId()];
      KeysAreWrittenOut(mc, q.namespace, q.name);
      OneCall(w, q, UpdateLookup, script, Nothing, UpdateRead(mc));
      if script[1].outcome != Answered {
        Unanswered(w, q, UpdateRead(mc), script[1..]);
      } else if q.At(mc) !in w.applyDesires.docs {
        OneCall(w, q, UpdateRead(mc), script[1..], Nothing, Finished(Refused(NotFound)));
      } else {
        var d := w.applyDesires.docs[q.At(mc)];
        OneCall(w, q, UpdateRead(mc), script[1..], Nothing, Replacing(mc, d));
        if script[2].outcome != Answered {
          Unanswered(w, q, Replacing(mc, d), script[2..]);
        } else {
          var replace := ReplaceApply(q.At(mc), d, d.value.(content := Some(q.Object())));
          OneCall(w, q, Replacing(mc, d), script[2..], replace, Finished(Done));
        }
      }
    }
  }

  /** What a successful Update has written, and nothing else. */
  ghost predicate UpdateWrites(w: World, w': World, namespace: string, name: string, clusterID: string, body: string) {
    && namespace + ":" + name in w.mappings
    && var loc := ClusterLoc(w.mappings[namespace + ":" + name], namespace, name);
    && loc in w.applyDesires.docs
    && var before := w.applyDesires.docs[loc].value;
    && Holds(w'.applyDesires, loc, ApplyDesire(before.managementCluster, before.clusterID, before.target,
                                               Some(Cluster(namespace, name, clusterID, body))))
    && SameBut(w.applyDesires, w'.applyDesires, {loc})
    && w'.quotas == w.quotas && w'.mappings == w.mappings && w'.readDesires == w.readDesires
    && w'.deleteDesires == w.deleteDesires
  }

  /** An Update succeeds exactly when its calls are answered and the name is mapped and stored;
      then the stored content is the submitted object, and nothing else has changed. */
  lemma UpdateStoresTheRequest(w: World, namespace: string, name: string, clusterID: string, body: string,
                               script: seq<Input>)
    requires |script| >= 3 && Scripted(script, w.quotas.Keys)
    ensures var (w', response) := RunAlone(w, Request(Kind.Update, namespace, name, clusterID, body), UpdateLookup,
                                           script);
            && (response == Done <==> CanUpdate(w, namespace, name, script))
            && (response == Done ==> UpdateWrites(w, w', namespace, name, clusterID, body))
            && (response != Done && AllAnswered(script, 3) ==> response == Refused(NotFound) && w' == w)
  {
    var q := Request(Kind.Update, namespace, name, clusterID, body);
    UpdateEnds(w, q, script);
    if q.MapId() in w.mappings {
      KeysAreWrittenOut(w.mappings[q.MapId()], namespace, name);
    }
  }

  // Get.

  /** Get changes nothing. Of a mapped name it answers what the agent has reported, whatever is
      stored; and what is stored if the agent has reported nothing. */
  lemma GetAnswers(w: World, namespace: string, name: string, script: seq<Input>)
    requires |script| >= 4 && Scripted(script, w.quotas.Keys)
    ensures var (w', response) := RunAlone(w, Request(Kind.Get, namespace, name, "", ""), GetLookup, script);
            var mapId := namespace + ":" + name;
            && w' == w
            && (script[0].outcome == Answered && mapId !in w.mappings ==> response == Refused(NotFound))
            && (AllAnswered(script, 3) && mapId in w.mappings && script[1].live.Some? ==>
                  response == Content(script[1].live.value))
            && (AllAnswered(script, 4) && mapId in w.mappings && script[1].live.None? ==>
                  var loc := ClusterLoc(w.mappings[mapId], namespace, name);
                  response == if loc in w.applyDesires.docs && w.applyDesires.docs[loc].value.content.Some?
                              then Content(w.applyDesires.docs[loc].value.content.value) else Refused(NotFound))
  {
    var q := Request(Kind.Get, namespace, name, "", "");
    assert script[1..][0] == script[1] && script[1..][1..] == script[2..] && script[2..][0] == script[2];
    if script[0].outcome != Answered {
      Finishes(w, q, GetLookup, script);
    } else if q.MapId() !in w.mappings {
      OneCall(w, q, GetLookup, script, Nothing, Finished(Refused(NotFound)));
    } else {
      var mc := w.mappings[q.MapId()];
      OneCall(w, q, GetLookup, script, Nothing, GetStatusRead(mc));
      if script[1].outcome != Answered {
        Finishes(w, q, GetStatusRead(mc), script[1..]);
      } else {
        var live := script[1].live;
        OneCall(w, q, GetStatusRead(mc), script[1..], Nothing, GetStatusApply(mc, live));
        StatusAnswers(w, q, mc, live, script[2..]);
      }
    }
  }

  /** A call of a Get that is not answered. */
  lemma Finishes(w: World, q: Request, pc: Pc, script: seq<Input>)
    requires pc.GetLookup? || pc.GetStatusRead? || pc.GetStatusApply? || pc.GetSpec?
    requires Calls(pc) <= |script| && Scripted(script, w.quotas.Keys) && script[0].outcome != Answered
    ensures RunAlone(w, q, pc, script) == (w, Refused(Unavailable))
  {
    OneCall(w, q, pc, script, Nothing, Finished(Refused(Unavailable)));
  }

  lemma StatusAnswers(w: World, q: Request, mc: MC, live: Option<Manifest>, script: seq<Input>)
    requires |script| >= 2 && Scripted(script, w.quotas.Keys)
    ensures var (w', response) := RunAlone(w, q, GetStatusApply(mc, live), script);
            && w' == w
            && (script[0].outcome == Answered && live.Some? ==> response == Content(live.value))
            && (AllAnswered(script, 2) && live.None? ==>
                  var loc := ClusterLoc(mc, q.namespace, q.name);
                  response == if loc in w.applyDesires.docs && w.applyDesires.docs[loc].value.content.Some?
                              then Content(w.applyDesires.docs[loc].value.content.value) else Refused(NotFound))
  {
    KeysAreWrittenOut(mc, q.namespace, q.name);
    assert script[1..][0] == script[1];
    if script[0].outcome != Answered {
      Finishes(w, q, GetStatusApply(mc, live), script);
    } else if live.Some? {
      OneCall(w, q, GetStatusApply(mc, live), script, Nothing, Finished(Content(live.value)));
    } else {
      OneCall(w, q, GetStatusApply(mc, live), script, Nothing, GetSpec(mc));
      LastCall(w, q, GetSpec(mc), script[1..]);
    }
  }

  // Delete.

  /** Exactly when a Delete succeeds. */
  ghost predicate CanDelete(w: World, namespace: string, name: string, script: seq<Input>) {
    && AllAnswered(script, 7) && namespace + ":" + name in w.mappings
    && var mc := w.mappings[namespace + ":" + name];
       var loc := ClusterLoc(mc, namespace, name);
       mc in w.quotas && loc in w.applyDesires.docs && loc !in w.deleteDesires.docs
  }

  lemma ForgetEnds(w: World, q: Request, mc: MC, script: seq<Input>)
    requires |script| >= 2 && Scripted(script, w.quotas.Keys)
    ensures var (w', response) := RunAlone(w, q, Releasing(mc), script);
            && (response == Done <==> AllAnswered(script, 2) && mc in w.quotas)
            && (response == Done ==> w' == Apply(w.(quotas := Released(w.quotas, mc)), DropMapping(q.MapId())))
  {
    assert script[1..][0] == script[1];
    if script[0].outcome != Answered {
      Unanswered(w, q, Releasing(mc), script);
    } else if mc !in w.quotas {
      OneCall(w, q, Releasing(mc), script, Nothing, Finished(Refused(NotFound)));
    } else {
      var release := if w.quotas[mc].load <= 0 then Nothing else Release(mc);
      OneCall(w, q, Releasing(mc), script, release, Unmapping(mc));
      var w1 := Apply(w, release);
      assert w1 == w.(quotas := Released(w.quotas, mc));
      if script[1].outcome != Answered {
        Unanswered(w1, q, Unmapping(mc), script[1..]);
      } else {
        OneCall(w1, q, Unmapping(mc), script[1..], DropMapping(q.MapId()), Finished(Done));
      }
    }
  }

  lemma BuryEnds(w: World, q: Request, mc: MC, cid: string, script: seq<Input>)
    requires |script| >= 3 && Scripted(script, w.quotas.Keys)
    ensures var (w', response) := RunAlone(w, q, WritingDelete(mc, cid), script);
            && (response == Done <==> AllAnswered(script, 3) && q.At(mc) !in w.deleteDesires.docs && mc in w.quotas)
            && (response == Done ==> w' == AfterBurial(w, q, mc, cid))
  {
    AnsweredTail(script, 2);
    if script[0].outcome != Answered {
      Unanswered(w, q, WritingDelete(mc, cid), script);
    } else if q.At(mc) in w.deleteDesires.docs {
      OneCall(w, q, WritingDelete(mc, cid), script, Nothing, Finished(Refused(AlreadyExists)));
    } else {
      var insert := InsertDelete(q.At(mc), TargetDesire(mc, cid, ClusterTarget(q.namespace, q.name)));
      OneCall(w, q, WritingDelete(mc, cid), script, insert, Releasing(mc));
      ForgetEnds(Apply(w, insert), q, mc, script[1..]);
    }
  }

  function WithoutDesires(w: World, q: Request, mc: MC): World {
    Apply(Apply(w, RemoveApply(q.At(mc))), RemoveRead(q.At(mc)))
  }

  lemma ReadRemovalEnds(w: World, q: Request, mc: MC, cid: string, script: seq<Input>)
    requires |script| >= 4 && Scripted(script, w.quotas.Keys)
    ensures var (w', response) := RunAlone(w, q, RemovingRead(mc, cid), script);
            && (response == Done <==> AllAnswered(script, 4) && q.At(mc) !in w.deleteDesires.docs && mc in w.quotas)
            && (response == Done ==> w' == AfterBurial(Apply(w, RemoveRead(q.At(mc))), q, mc, cid))
  {
    AnsweredTail(script, 3);
    if script[0].outcome != Answered {
      Unanswered(w, q, RemovingRead(mc, cid), script);
    } else {
      OneCall(w, q, RemovingRead(mc, cid), script, RemoveRead(q.At(mc)), WritingDelete(mc, cid));
      BuryEnds(Apply(w, RemoveRead(q.At(mc))), q, mc, cid, script[1..]);
    }
  }

  lemma RemovalEnds(w: World, q: Request, mc: MC, cid: string, script: seq<Input>)
    requires |script| >= 5 && Scripted(script, w.quotas.Keys)
    ensures var (w', response) := RunAlone(w, q, RemovingApply(mc, cid), script);
            && (response == Done <==> AllAnswered(script, 5) && q.At(mc) !in w.deleteDesires.docs && mc in w.quotas)
            && (response == Done ==> w' == AfterBurial(WithoutDesires(w, q, mc), q, mc, cid))
  {
    AnsweredTail(script, 4);
    if script[0].outcome != Answered {
      Unanswered(w, q, RemovingApply(mc, cid), script);
    } else {
      OneCall(w, q, RemovingApply(mc, cid), script, RemoveApply(q.At(mc)), RemovingRead(mc, cid));
      ReadRemovalEnds(Apply(w, RemoveApply(q.At(mc))), q, mc, cid, script[1..]);
    }
  }

  lemma LocatedEnds(w: World, q: Request, mc: MC, script: seq<Input>)
    requires |script| >= 6 && Scripted(script, w.quotas.Keys)
    ensures var (w', response) := RunAlone(w, q, DeleteRead(mc), script);
            && (response == Done <==> AllAnswered(script, 6) && mc in w.quotas && q.At(mc) in w.applyDesires.docs
                                      && q.At(mc) !in w.deleteDesires.docs)
            && (response == Done ==>
                  w' == AfterBurial(WithoutDesires(w, q, mc), q, mc, w.applyDesires.docs[q.At(mc)].value.clusterID))
  {
    AnsweredTail(script, 5);
    if script[0].outcome != Answered {
      Unanswered(w, q, DeleteRead(mc), script);
    } else if q.At(mc) !in w.applyDesires.docs {
      OneCall(w, q, DeleteRead(mc), script, Nothing, Finished(Refused(NotFound)));
    } else {
      var cid := w.applyDesires.docs[q.At(mc)].value.clusterID;
      OneCall(w, q, DeleteRead(mc), script, Nothing, RemovingApply(mc, cid));
      RemovalEnds(w, q, mc, cid, script[1..]);
    }
  }

  lemma DeleteEnds(w: World, q: Request, script: seq<Input>)
    requires |script| >= 7 && Scripted(script, w.quotas.Keys)
    ensures var (w', response) := RunAlone(w, q, DeleteLookup, script);
            && (response == Done <==> CanDelete(w, q.namespace, q.name, script))
            && (response == Done ==>
                  && var mc := w.mappings[q.MapId()];
                  && q.At(mc) in w.applyDesires.docs
                  && w' == AfterBurial(WithoutDesires(w, q, mc), q, mc, w.applyDesires.docs[q.At(mc)].value.clusterID))
  {
    AnsweredTail(script, 6);
    if script[0].outcome != Answered {
      Unanswered(w, q, DeleteLookup, script);
    } else if q.MapId() !in w.mappings {
      OneCall(w, q, DeleteLookup, script, Nothing, Finished(Refused(NotFound)));
    } else {
      var mc := w.mappings[q.MapId()];
      KeysAreWrittenOut(mc, q.namespace, q.name);
      OneCall(w, q, DeleteLookup, script, Nothing, DeleteRead(mc));
      LocatedEnds(w, q, mc, script[1..]);
    }
  }

  /** What a successful Delete has done, and nothing else. */
  ghost predicate DeleteBuries(w: World, w': World, namespace: string, name: string, mc: MC) {
    var loc := ClusterLoc(mc, namespace, name);
    && mc in w.quotas && loc in w.applyDesires.docs
    && var clusterID := w.applyDesires.docs[loc].value.clusterID;
    var load := w.quotas[mc].load;
    && w'.quotas == w.quotas[mc := Quota(w.quotas[mc].capacity, if load > 0 then load - 1 else load)]
    && w'.mappings == w.mappings - {namespace + ":" + name}
    && loc !in w'.applyDesires.docs && loc !in w'.readDesires.docs
    && Holds(w'.deleteDesires, loc, TargetDesire(mc, clusterID, ClusterReference(namespace, name)))
    && SameBut(w.applyDesires, w'.applyDesires, {loc}) && SameBut(w.readDesires, w'.readDesires, {loc})
    && SameBut(w.deleteDesires, w'.deleteDesires, {loc})
  }

  lemma BurialIsWrittenOut(w: World, namespace: string, name: string, mc: MC)
    requires mc in w.quotas && ClusterLoc(mc, namespace, name) in w.applyDesires.docs
    ensures var q := Request(Kind.Delete, namespace, name, "", "");
            var clusterID := w.applyDesires.docs[ClusterLoc(mc, namespace, name)].value.clusterID;
            DeleteBuries(w, AfterBurial(WithoutDesires(w, q, mc), q, mc, clusterID), namespace, name, mc)
  {
    KeysAreWrittenOut(mc, namespace, name);
  }

  /** A Delete succeeds exactly when its calls are answered, the name is mapped to a management
      cluster that exists and stores it, and no DeleteDesire is there yet; the one it writes
      carries the cluster id of the stored ApplyDesire. */
  lemma DeleteBuriesTheCluster(w: World, namespace: string, name: string, script: seq<Input>)
    requires |script| >= 7 && Scripted(script, w.quotas.Keys)
    ensures var (w', response) := RunAlone(w, Request(Kind.Delete, namespace, name, "", ""), DeleteLookup, script);
            && (response == Done <==> CanDelete(w, namespace, name, script))
            && (response == Done ==> DeleteBuries(w, w', namespace, name, w.mappings[namespace + ":" + name]))
  {
    var q := Request(Kind.Delete, namespace, name, "", "");
    DeleteEnds(w, q, script);
    if CanDelete(w, namespace, name, script) {
      KeysAreWrittenOut(w.mappings[q.MapId()], namespace, name);
      BurialIsWrittenOut(w, namespace, name, w.mappings[q.MapId()]);
    }
  }

  // One request after another.

  /** What a Get after a successful Create answers until the agent reports. */
  lemma CreateThenGet(w: World, w': World, namespace: string, name: string, clusterID: string, body: string,
                      script1: seq<Input>, script2: seq<Input>)
    requires |script1| >= 6 && Scripted(script1, w.quotas.Keys)
    requires RunAlone(w, Request(Kind.Create, namespace, name, clusterID, body), CheckMapping, script1) == (w', Done)
    requires Scripted(script2, w'.quotas.Keys) && AllAnswered(script2, 4) && script2[1].live.None?
    ensures RunAlone(w', Request(Kind.Get, namespace, name, "", ""), GetLookup, script2)
         == (w', Content(Cluster(namespace, name, clusterID, body)))
  {
    CreateStoresTheRequest(w, namespace, name, clusterID, body, script1);
    var mc :| CanCreate(w, namespace, name, script1, mc);
    assert CreateWrites(w, w', namespace, name, clusterID, body, mc);
    GetAnswers(w', namespace, name, script2);
  }

  /** The same after an Update. */
  lemma UpdateThenGet(w: World, w': World, namespace: string, name: string, clusterID: string, body: string,
                      script1: seq<Input>, script2: seq<Input>)
    requires |script1| >= 3 && Scripted(script1, w.quotas.Keys)
    requires RunAlone(w, Request(Kind.Update, namespace, name, clusterID, body), UpdateLookup, script1) == (w', Done)
    requires Scripted(script2, w'.quotas.Keys) && AllAnswered(script2, 4) && script2[1].live.None?
    ensures RunAlone(w', Request(Kind.Get, namespace, name, "", ""), GetLookup, script2)
         == (w', Content(Cluster(namespace, name, clusterID, body)))
  {
    UpdateStoresTheRequest(w, namespace, name, clusterID, body, script1);
    GetAnswers(w', namespace, name, script2);
  }

  /** A cluster created on `mc` and deleted again: its DeleteDesire, with the cluster id the
      Create was given, is all that is left of it. */
  ghost predicate LeavesDeleteDesire(w: World, w': World, namespace: string, name: string, clusterID: string, mc: MC) {
    var loc := ClusterLoc(mc, namespace, name);
    && Holds(w'.deleteDesires, loc, TargetDesire(mc, clusterID, ClusterReference(namespace, name)))
    && w'.mappings == w.mappings && (mc in w.quotas && w.quotas[mc].load >= 0 ==> w'.quotas == w.quotas)
    && SameBut(w.applyDesires, w'.applyDesires, {NamespaceLoc(mc, namespace)})
    && SameBut(w.readDesires, w'.readDesires, {}) && SameBut(w.deleteDesires, w'.deleteDesires, {loc})
  }

  lemma DeleteOfCreated(w: World, w1: World, w2: World, namespace: string, name: string, clusterID: string,
                        body: string, mc: MC)
    requires namespace + ":" + name !in w.mappings && CreateWrites(w, w1, namespace, name, clusterID, body, mc)
    requires ClusterLoc(mc, namespace, name) !in w.applyDesires.docs
    requires ClusterLoc(mc, namespace, name) !in w.readDesires.docs
    requires mc in w1.quotas && ClusterLoc(mc, namespace, name) in w1.applyDesires.docs
    requires DeleteBuries(w1, w2, namespace, name, mc)
    ensures LeavesDeleteDesire(w, w2, namespace, name, clusterID, mc)
  {
    var loc, nsLoc := ClusterLoc(mc, namespace, name), NamespaceLoc(mc, namespace);
    assert w1.mappings - {namespace + ":" + name} == w.mappings;
    forall l | l != nsLoc
      ensures Lookup(w.applyDesires.docs, l) == Lookup(w2.applyDesires.docs, l)
    {
      assert l != loc ==> l !in {loc, nsLoc} && l !in {loc};
    }
    forall l
      ensures Lookup(w.readDesires.docs, l) == Lookup(w2.readDesires.docs, l)
    {
      assert l != loc ==> l !in {loc};
    }
  }

  lemma CreatedCanBeDeleted(w: World, w1: World, namespace: string, name: string, clusterID: string, body: string,
                            mc: MC, script: seq<Input>)
    requires CreateWrites(w, w1, namespace, name, clusterID, body, mc)
    ensures CanDelete(w1, namespace, name, script)
       <==> AllAnswered(script, 7) && ClusterLoc(mc, namespace, name) !in w.deleteDesires.docs
    ensures w1.mappings[namespace + ":" + name] == mc && mc in w1.quotas
    ensures ClusterLoc(mc, namespace, name) in w1.applyDesires.docs
  {
  }

  lemma DeleteAfterCreate(w: World, w1: World, namespace: string, name: string, clusterID: string, body: string,
                          mc: MC, script: seq<Input>)
    requires namespace + ":" + name !in w.mappings && CreateWrites(w, w1, namespace, name, clusterID, body, mc)
    requires ClusterLoc(mc, namespace, name) !in w.applyDesires.docs
    requires ClusterLoc(mc, namespace, name) !in w.readDesires.docs
    requires |script| >= 7 && Scripted(script, w1.quotas.Keys)
    ensures var (w2, response) := RunAlone(w1, Request(Kind.Delete, namespace, name, "", ""), DeleteLookup, script);
            && (response == Done <==>
                  AllAnswered(script, 7) && ClusterLoc(mc, namespace, name) !in w.deleteDesires.docs)
            && (response == Done ==> LeavesDeleteDesire(w, w2, namespace, name, clusterID, mc))
  {
    CreatedCanBeDeleted(w, w1, namespace, name, clusterID, body, mc, script);
    DeleteBuriesTheCluster(w1, namespace, name, script);
    if CanDelete(w1, namespace, name, script) {
      var w2 := RunAlone(w1, Request(Kind.Delete, namespace, name, "", ""), DeleteLookup, script).0;
      DeleteOfCreated(w, w1, w2, namespace, name, clusterID, body, mc);
    }
  }

  /** A Delete after a Create succeeds exactly when its calls are answered and no DeleteDesire was
      there before; it then passes on the cluster id the Create was given and undoes the rest. */
  lemma CreateThenDelete(w: World, w1: World, namespace: string, name: string, clusterID: string, body: string, mc: MC,
                         script1: seq<Input>, script2: seq<Input>)
    requires |script1| >= 6 && Scripted(script1, w.quotas.Keys) && CanCreate(w, namespace, name, script1, mc)
    requires RunAlone(w, Request(Kind.Create, namespace, name, clusterID, body), CheckMapping, script1).0 == w1
    requires |script2| >= 7 && Scripted(script2, w1.quotas.Keys)
    ensures var (w2, response) := RunAlone(w1, Request(Kind.Delete, namespace, name, "", ""), DeleteLookup, script2);
            && (response == Done <==>
                  AllAnswered(script2, 7) && ClusterLoc(mc, namespace, name) !in w.deleteDesires.docs)
            && (response == Done ==> LeavesDeleteDesire(w, w2, namespace, name, clusterID, mc))
  {
    CreateStoresTheRequest(w, namespace, name, clusterID, body, script1);
    DeleteAfterCreate(w, w1, namespace, name, clusterID, body, mc, script2);
  }
}
