/**
  The handlers themselves (internal/apiserver/handlers.go): ordered store calls with early
  returns, on shared mutable clients. Each is proved to do exactly what its request does
  when the step machine runs it alone, whatever each call's fate.
 */
module Handlers {
  import opened Wrappers
  import opened DesireId
  import opened Desires
  import opened Placement
  import opened Protocol
  import opened Solo
  import opened Effects

  class Handler {
    const placement: Client
    const applyDesires: Collection<ApplyDesire>
    const readDesires: Collection<TargetDesire>
    const deleteDesires: Collection<TargetDesire>

    ghost predicate Valid() {
      readDesires != deleteDesires
    }

    ghost function Clients(): set<object> {
      {placement, applyDesires, readDesires, deleteDesires}
    }

    ghost function View(): World
      reads Clients()
    {
      World(placement.quotas, placement.mappings, applyDesires.table, readDesires.table, deleteDesires.table)
    }

    constructor (placement: Client, applyDesires: Collection<ApplyDesire>,
                 readDesires: Collection<TargetDesire>, deleteDesires: Collection<TargetDesire>)
      requires readDesires != deleteDesires
      ensures Valid()
      ensures this.placement == placement && this.applyDesires == applyDesires
      ensures this.readDesires == readDesires && this.deleteDesires == deleteDesires
    {
      this.placement := placement;
      this.applyDesires := applyDesires;
      this.readDesires := readDesires;
      this.deleteDesires := deleteDesires;
    }

    // Create.

    /** Check that the name is free and count it on a management cluster. */
    method Place(q: Request, script: seq<Input>) returns (r: Result<MC, Response>)
      requires Valid() && |script| >= 6 && Scripted(script, View().quotas.Keys)
      modifies Clients()
      ensures View().quotas.Keys == old(View()).quotas.Keys
      ensures RunAlone(old(View()), q, CheckMapping, script) ==
              match r
              case Success(mc) => RunAlone(View(), q, WritingNamespace(mc), script[2..])
              case Failure(response) => (View(), response)
    {
      ghost var w0 := View();
      var mapping := placement.GetClusterMapping(q.namespace, q.name, script[0].outcome);
      if mapping.Success? {
        return Failure(Conflict);
      }
      if mapping.error != NotFound {
        return Failure(Refused(mapping.error));
      }
      assert RunAlone(w0, q, CheckMapping, script) == RunAlone(View(), q, Allocating, script[1..]);

      var mc := placement.Allocate(script[1].listing, script[1].outcome);
      assert script[1..][0] == script[1] && script[1..][1..] == script[2..];
      if mc.Failure? {
        return Failure(if mc.error == Broken then Refused(Unavailable) else NoPlacement);
      }
      r := Success(mc.value);
    }

    /** Write the namespace's ApplyDesire, unless it is there, and the cluster's. */
    method WriteApplies(q: Request, mc: MC, script: seq<Input>) returns (stop: Option<Response>)
      requires Valid() && |script| >= 4 && Scripted(script, View().quotas.Keys)
      modifies Clients()
      ensures View().quotas == old(View()).quotas
      ensures RunAlone(old(View()), q, WritingNamespace(mc), script) ==
              match stop
              case None => RunAlone(View(), q, WritingRead(mc), script[2..])
              case Some(response) => (View(), response)
    {
      ghost var w0 := View();
      var nsLoc := Loc(mc, NamespaceDocumentID(q.namespace));
      var ns := applyDesires.Create(nsLoc, NamespaceDesire(mc, q.namespace), script[0].outcome);
      if ns.Failure? && ns.error != AlreadyExists {
        return Some(Refused(ns.error));
      }
      assert RunAlone(w0, q, WritingNamespace(mc), script) == RunAlone(View(), q, WritingApply(mc), script[1..]);

      ghost var w1 := View();
      var apply := applyDesires.Create(q.At(mc), q.Desire(mc), script[1].outcome);
      assert script[1..][0] == script[1] && script[1..][1..] == script[2..];
      if apply.Failure? {
        assert RunAlone(w1, q, WritingApply(mc), script[1..]) == (View(), Refused(apply.error));
        return Some(Refused(apply.error));
      }
      stop := None;
    }

    /** Write the ReadDesire, and last of all the mapping that makes the cluster visible. */
    method Publish(q: Request, mc: MC, script: seq<Input>) returns (response: Response)
      requires Valid() && |script| >= 2 && Scripted(script, View().quotas.Keys)
      modifies Clients()
      ensures (View(), response) == RunAlone(old(View()), q, WritingRead(mc), script)
    {
      ghost var w0 := View();
      var target := TargetDesire(mc, q.clusterID, ClusterTarget(q.namespace, q.name));
      var read := readDesires.Create(q.At(mc), target, script[0].outcome);
      if read.Failure? {
        return Refused(read.error);
      }
      assert RunAlone(w0, q, WritingRead(mc), script) == RunAlone(View(), q, WritingMapping(mc), script[1..]);

      ghost var w1 := View();
      assert script[1..][0] == script[1];
      var mapping := placement.SetClusterMapping(q.namespace, q.name, mc, script[1].outcome);
      response := if mapping.Failure? then Refused(mapping.error) else Done;
      assert RunAlone(w1, q, WritingMapping(mc), script[1..]) == (View(), response);
    }

    method Create(namespace: string, name: string, clusterID: string, body: string, script: seq<Input>)
      returns (response: Response)
      requires Valid() && |script| >= 6 && Scripted(script, View().quotas.Keys)
      modifies Clients()
      ensures (View(), response) ==
              RunAlone(old(View()), Request(Kind.Create, namespace, name, clusterID, body), CheckMapping, script)
      ensures response == Done ==>
                exists mc :: CreateWrites(old(View()), View(), namespace, name, clusterID, body, mc)
    {
      CreateStoresTheRequest(View(), namespace, name, clusterID, body, script);
      var q := Request(Kind.Create, namespace, name, clusterID, body);
      var mc := Place(q, script);
      if mc.Failure? {
        return mc.error;
      }
      var stop := WriteApplies(q, mc.value, script[2..]);
      if stop.Some? {
        return stop.value;
      }
      assert script[2..][2..] == script[4..];
      response := Publish(q, mc.value, script[4..]);
    }

    // Update.

    /** Find the management cluster and read the ApplyDesire there. */
    method ReadExisting(q: Request, script: seq<Input>) returns (r: Result<(MC, Document<ApplyDesire>), Response>)
      requires Valid() && |script| >= 3 && Scripted(script, View().quotas.Keys)
      ensures r.Success? ==>
                RunAlone(View(), q, UpdateLookup, script) == RunAlone(View(), q, Replacing(r.value.0, r.value.1),
                                                                      script[2..])
      ensures r.Failure? ==> RunAlone(View(), q, UpdateLookup, script) == (View(), r.error)
    {
      var mc := placement.GetClusterMapping(q.namespace, q.name, script[0].outcome);
      if mc.Failure? {
        return Failure(Refused(mc.error));
      }
      assert RunAlone(View(), q, UpdateLookup, script) == RunAlone(View(), q, UpdateRead(mc.value), script[1..]);

      var existing := applyDesires.Get(q.At(mc.value), script[1].outcome);
      assert script[1..][0] == script[1] && script[1..][1..] == script[2..];
      if existing.Failure? {
        return Failure(Refused(existing.error));
      }
      r := Success((mc.value, existing.value));
    }

    method Update(namespace: string, name: string, clusterID: string, body: string, script: seq<Input>)
      returns (response: Response)
      requires Valid() && |script| >= 3 && Scripted(script, View().quotas.Keys)
      modifies Clients()
      ensures (View(), response) ==
              RunAlone(old(View()), Request(Kind.Update, namespace, name, clusterID, body), UpdateLookup, script)
      ensures response == Done ==> UpdateWrites(old(View()), View(), namespace, name, clusterID, body)
    {
      UpdateStoresTheRequest(View(), namespace, name, clusterID, body, script);
      var q := Request(Kind.Update, namespace, name, clusterID, body);
      ghost var w := View();
      var existing := ReadExisting(q, script);
      if existing.Failure? {
        return existing.error;
      }
      var (mc, d) := existing.value;
      var replaced := applyDesires.Replace(q.At(mc), d.(value := d.value.(content := Some(q.Object()))),
                                           script[2].outcome);
      response := if replaced.Failure? then Refused(replaced.error) else Done;
      assert script[2..][0] == script[2];
      assert RunAlone(w, q, Replacing(mc, d), script[2..]) == (View(), response);
    }

    // Delete.

    /** Find the management cluster and the cluster id recorded in the ApplyDesire. */
    method Locate(q: Request, script: seq<Input>) returns (r: Result<(MC, string), Response>)
      requires Valid() && |script| >= 7 && Scripted(script, View().quotas.Keys)
      ensures r.Success? ==>
                RunAlone(View(), q, DeleteLookup, script) == RunAlone(View(), q, RemovingApply(r.value.0, r.value.1),
                                                                      script[2..])
      ensures r.Failure? ==> RunAlone(View(), q, DeleteLookup, script) == (View(), r.error)
    {
      var mc := placement.GetClusterMapping(q.namespace, q.name, script[0].outcome);
      if mc.Failure? {
        return Failure(Refused(mc.error));
      }
      assert RunAlone(View(), q, DeleteLookup, script) == RunAlone(View(), q, DeleteRead(mc.value), script[1..]);

      var existing := applyDesires.Get(q.At(mc.value), script[1].outcome);
      assert script[1..][0] == script[1] && script[1..][1..] == script[2..];
      if existing.Failure? {
        return Failure(Refused(existing.error));
      }
      r := Success((mc.value, existing.value.value.clusterID));
    }

    /** Remove the ApplyDesire and the ReadDesire. */
    method RemoveDesires(q: Request, mc: MC, cid: string, script: seq<Input>) returns (stop: Option<Response>)
      requires Valid() && |script| >= 5 && Scripted(script, View().quotas.Keys)
      modifies Clients()
      ensures View().quotas == old(View()).quotas
      ensures RunAlone(old(View()), q, RemovingApply(mc, cid), script) ==
              match stop
              case None => RunAlone(View(), q, WritingDelete(mc, cid), script[2..])
              case Some(response) => (View(), response)
    {
      ghost var w0 := View();
      var apply := applyDesires.Delete(q.At(mc), script[0].outcome);
      if apply.Failure? {
        return Some(Refused(apply.error));
      }
      assert RunAlone(w0, q, RemovingApply(mc, cid), script) == RunAlone(View(), q, RemovingRead(mc, cid), script[1..]);

      ghost var w1 := View();
      var read := readDesires.Delete(q.At(mc), script[1].outcome);
      assert script[1..][0] == script[1] && script[1..][1..] == script[2..];
      if read.Failure? {
        assert RunAlone(w1, q, RemovingRead(mc, cid), script[1..]) == (View(), Refused(read.error));
        return Some(Refused(read.error));
      }
      stop := None;
    }

    /** Give the unit of capacity back and forget the mapping. */
    method Forget(q: Request, mc: MC, script: seq<Input>) returns (response: Response)
      requires Valid() && |script| >= 2 && Scripted(script, View().quotas.Keys)
      modifies Clients()
      ensures (View(), response) == RunAlone(old(View()), q, Releasing(mc), script)
    {
      ghost var w0 := View();
      var released := placement.Release(mc, script[0].outcome);
      if released.Failure? {
        return Refused(if released.error == UnknownCluster then NotFound else Unavailable);
      }
      assert RunAlone(w0, q, Releasing(mc), script) == RunAlone(View(), q, Unmapping(mc), script[1..]);

      assert script[1..][0] == script[1];
      ghost var w1 := View();
      var mapping := placement.DeleteClusterMapping(q.namespace, q.name, script[1].outcome);
      response := if mapping.Failure? then Refused(mapping.error) else Done;
      assert RunAlone(w1, q, Unmapping(mc), script[1..]) == (View(), response);
    }

    /** Write the DeleteDesire, only now that the ApplyDesire is gone, and forget the cluster. */
    method Bury(q: Request, mc: MC, cid: string, script: seq<Input>) returns (response: Response)
      requires Valid() && |script| >= 3 && Scripted(script, View().quotas.Keys)
      modifies Clients()
      ensures (View(), response) == RunAlone(old(View()), q, WritingDelete(mc, cid), script)
    {
      ghost var w := View();
      var target := TargetDesire(mc, cid, ClusterTarget(q.namespace, q.name));
      var deleted := deleteDesires.Create(q.At(mc), target, script[0].outcome);
      if deleted.Failure? {
        return Refused(deleted.error);
      }
      assert RunAlone(w, q, WritingDelete(mc, cid), script) == RunAlone(View(), q, Releasing(mc), script[1..]);
      response := Forget(q, mc, script[1..]);
    }

    method Delete(namespace: string, name: string, script: seq<Input>) returns (response: Response)
      requires Valid() && |script| >= 7 && Scripted(script, View().quotas.Keys)
      modifies Clients()
      ensures (View(), response) == RunAlone(old(View()), Request(Kind.Delete, namespace, name, "", ""), DeleteLookup,
                                             script)
      ensures response == Done ==> exists mc :: DeleteBuries(old(View()), View(), namespace, name, mc)
    {
      DeleteBuriesTheCluster(View(), namespace, name, script);
      var q := Request(Kind.Delete, namespace, name, "", "");
      var located := Locate(q, script);
      if located.Failure? {
        return located.error;
      }
      var (mc, cid) := located.value;
      var stop := RemoveDesires(q, mc, cid, script[2..]);
      if stop.Some? {
        return stop.value;
      }
      assert script[2..][2..] == script[4..];
      response := Bury(q, mc, cid, script[4..]);
    }

    // Get.

    /** `script[1].live` and `script[2]` stand for the agent's status database. */
    method Get(namespace: string, name: string, script: seq<Input>) returns (response: Response)
      requires Valid() && |script| >= 4 && Scripted(script, View().quotas.Keys)
      ensures (View(), response) == RunAlone(View(), Request(Kind.Get, namespace, name, "", ""), GetLookup, script)
      ensures AllAnswered(script, 3) && namespace + ":" + name in View().mappings && script[1].live.Some? ==>
                response == Content(script[1].live.value)
    {
      ghost var w := View();
      GetAnswers(w, namespace, name, script);
      var q := Request(Kind.Get, namespace, name, "", "");
      var mc := placement.GetClusterMapping(namespace, name, script[0].outcome);
      if mc.Failure? {
        return Refused(mc.error);
      }
      assert RunAlone(w, q, GetLookup, script) == RunAlone(w, q, GetStatusRead(mc.value), script[1..]);

      assert script[1..][0] == script[1] && script[1..][1..] == script[2..];
      if script[1].outcome != Answered {
        assert RunAlone(w, q, GetStatusRead(mc.value), script[1..]) == (w, Refused(Unavailable));
        return Refused(Unavailable);
      }
      var live := script[1].live;
      assert RunAlone(w, q, GetStatusRead(mc.value), script[1..])
          == RunAlone(w, q, GetStatusApply(mc.value, live), script[2..]);

      assert script[2..][0] == script[2] && script[2..][1..] == script[3..] && script[3..][0] == script[3];
      if script[2].outcome != Answered {
        assert RunAlone(w, q, GetStatusApply(mc.value, live), script[2..]) == (w, Refused(Unavailable));
        return Refused(Unavailable);
      }
      if live.Some? {
        assert RunAlone(w, q, GetStatusApply(mc.value, live), script[2..]) == (w, Content(live.value));
        return Content(live.value);
      }
      assert RunAlone(w, q, GetStatusApply(mc.value, live), script[2..])
          == RunAlone(w, q, GetSpec(mc.value), script[3..]);

      LastCall(w, q, GetSpec(mc.value), script[3..]);
      var spec := applyDesires.Get(q.At(mc.value), script[3].outcome);
      if spec.Failure? {
        return Refused(spec.error);
      }
      response := match spec.value.value.content
                  case Some(m) => Content(m)
                  case None => Refused(NotFound);
    }
  }
}
