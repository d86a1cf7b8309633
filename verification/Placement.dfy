/**
  Placement of clusters on management clusters (internal/placement/placement.go).
  The order in which the store lists the management clusters is a parameter.
 */
module Placement {
  import opened Wrappers
  import opened DesireId
  import opened Desires

  /** `load` is the document field `allocated`. */
  datatype Quota = Quota(capacity: int, load: int) {
    predicate HasRoom() { load < capacity }
  }

  type Quotas = map<MC, Quota>

  /** `listing` names every management cluster of `mcs` once. */
  ghost predicate Lists(listing: seq<MC>, mcs: set<MC>) {
    && (forall mc :: mc in mcs <==> mc in listing)
    && (forall i, j :: 0 <= i < j < |listing| ==> listing[i] != listing[j])
  }

  /** The first least-loaded management cluster with room, scanning `listing`. */
  function Choose(quotas: Quotas, listing: seq<MC>): (best: Option<MC>)
    requires forall mc :: mc in listing ==> mc in quotas
    ensures best.Some? ==> best.value in listing
  {
    if listing == [] then None
    else
      var last := |listing| - 1;
      var mc := listing[last];
      var b := Choose(quotas, listing[..last]);
      if !quotas[mc].HasRoom() then b
      else if b.None? || quotas[mc].load < quotas[b.value].load then Some(mc)
      else b
  }

  /** `mc` has room, and no management cluster with room is less loaded. */
  ghost predicate LeastLoaded(quotas: Quotas, mc: MC) {
    && mc in quotas && quotas[mc].HasRoom()
    && forall other :: other in quotas && quotas[other].HasRoom() ==> quotas[mc].load <= quotas[other].load
  }

  lemma {:induction false} ChooseScans(quotas: Quotas, listing: seq<MC>)
    requires forall mc :: mc in listing ==> mc in quotas
    ensures Choose(quotas, listing).None? <==> forall mc :: mc in listing ==> !quotas[mc].HasRoom()
    ensures forall best :: Choose(quotas, listing) == Some(best) ==>
              && quotas[best].HasRoom()
              && forall mc :: mc in listing && quotas[mc].HasRoom() ==> quotas[best].load <= quotas[mc].load
  {
    if listing != [] {
      var last := |listing| - 1;
      ChooseScans(quotas, listing[..last]);
      assert forall mc :: mc in listing <==> mc in listing[..last] || mc == listing[last];
    }
  }

  /** Whatever the listing order: placement fails exactly when nothing has room, and
      otherwise picks a least-loaded management cluster. */
  lemma ChooseIsLeastLoaded(quotas: Quotas, listing: seq<MC>)
    requires Lists(listing, quotas.Keys)
    ensures Choose(quotas, listing).None? <==> forall mc :: mc in quotas ==> !quotas[mc].HasRoom()
    ensures forall best :: Choose(quotas, listing) == Some(best) ==> LeastLoaded(quotas, best)
  {
    ChooseScans(quotas, listing);
  }

  /** Every earlier entry of the listing with room is more loaded than the one at `i`. */
  ghost predicate FirstAt(quotas: Quotas, listing: seq<MC>, i: nat)
    requires i < |listing| && forall k :: 0 <= k <= i ==> listing[k] in quotas
  {
    forall k :: 0 <= k < i && quotas[listing[k]].load < quotas[listing[k]].capacity ==>
      quotas[listing[i]].load < quotas[listing[k]].load
  }

  /** Among equally loaded management clusters the scan picks the first in the listing. */
  lemma {:induction false} ChooseIsFirst(quotas: Quotas, listing: seq<MC>) returns (i: nat)
    requires (forall mc :: mc in listing ==> mc in quotas) && Choose(quotas, listing).Some?
    ensures i < |listing| && Choose(quotas, listing) == Some(listing[i]) && FirstAt(quotas, listing, i)
  {
    var last := |listing| - 1;
    var init, mc := listing[..last], listing[last];
    ChooseScans(quotas, init);
    if Choose(quotas, init).Some? && Choose(quotas, listing) == Choose(quotas, init) {
      i := ChooseIsFirst(quotas, init);
      assert forall k :: 0 <= k <= i ==> listing[k] == init[k];
    } else {
      i := last;
      forall k | 0 <= k < i && quotas[listing[k]].load < quotas[listing[k]].capacity
        ensures quotas[mc].load < quotas[listing[k]].load
      {
        assert init[k] == listing[k] && init[k] in init;
      }
    }
  }

  function Adjusted(quotas: Quotas, mc: MC, delta: int): Quotas
    requires mc in quotas
  {
    quotas[mc := Quota(quotas[mc].capacity, quotas[mc].load + delta)]
  }

  datatype PlacementError = NotConfigured | NoCapacity | UnknownCluster | Broken

  class Client {
    var quotas: Quotas
    var mappings: map<string, MC>

    constructor (quotas: Quotas, mappings: map<string, MC>)
      ensures this.quotas == quotas && this.mappings == mappings
    {
      this.quotas := quotas;
      this.mappings := mappings;
    }

    /** One transaction: choose a management cluster and count one more cluster on it. */
    method Allocate(listing: seq<MC>, o: Outcome) returns (r: Result<MC, PlacementError>)
      requires Lists(listing, quotas.Keys)
      modifies this`quotas
      ensures quotas == match Choose(old(quotas), listing)
                        case Some(mc) => if o == Failed then old(quotas) else Adjusted(old(quotas), mc, 1)
                        case None => old(quotas)
      ensures o != Answered ==> r == Failure(Broken)
      ensures o == Answered ==> r == match Choose(old(quotas), listing)
                                     case Some(mc) => Success(mc)
                                     case None => Failure(if listing == [] then NotConfigured else NoCapacity)
      ensures o == Answered && r.Success? ==> LeastLoaded(old(quotas), r.value)
      ensures o == Answered && r.Failure? ==> forall mc :: mc in quotas ==> !quotas[mc].HasRoom()
    {
      if o == Failed {
        return Failure(Broken);
      }
      if |listing| == 0 {
        assert Choose(quotas, listing) == None;
        return Failure(if o == Answered then NotConfigured else Broken);
      }
      var best: Option<MC> := None;
      for i := 0 to |listing|
        invariant best == Choose(quotas, listing[..i])
      {
        var mc := listing[i];
        assert listing[..i + 1][..i] == listing[..i];
        if !quotas[mc].HasRoom() {
          continue;
        }
        if best.None? || quotas[mc].load < quotas[best.value].load {
          best := Some(mc);
        }
      }
      assert listing[..|listing|] == listing;
      ChooseIsLeastLoaded(quotas, listing);
      match best {
        case None =>
          r := Failure(if o == Answered then NoCapacity else Broken);
        case Some(mc) =>
          quotas := Adjusted(quotas, mc, 1);
          r := if o == Answered then Success(mc) else Failure(Broken);
      }
    }

    /** One transaction: count one cluster less on `mc`, but never below zero. */
    method Release(mc: MC, o: Outcome) returns (r: Result<(), PlacementError>)
      modifies this`quotas
      ensures quotas == if o != Failed && mc in old(quotas) && old(quotas)[mc].load > 0
                        then Adjusted(old(quotas), mc, -1) else old(quotas)
      ensures r == if o != Answered then Failure(Broken)
                   else if mc in old(quotas) then Success(()) else Failure(UnknownCluster)
    {
      if o == Failed {
        return Failure(Broken);
      }
      if mc !in quotas {
        return Failure(if o == Answered then UnknownCluster else Broken);
      }
      if quotas[mc].load > 0 {
        quotas := Adjusted(quotas, mc, -1);
      }
      r := if o == Answered then Success(()) else Failure(Broken);
    }

    method SetClusterMapping(namespace: string, name: string, mc: MC, o: Outcome) returns (r: Result<(), Error>)
      modifies this`mappings
      ensures mappings == if o == Failed then old(mappings) else old(mappings)[namespace + ":" + name := mc]
      ensures r == Report(o, Success(()))
    {
      if o != Failed {
        mappings := mappings[ClusterMapDocID(namespace, name) := mc];
      }
      r := Report(o, Success(()));
    }

    method GetClusterMapping(namespace: string, name: string, o: Outcome) returns (r: Result<MC, Error>)
      ensures r == Report(o, match Lookup(mappings, namespace + ":" + name)
                             case Some(mc) => Success(mc)
                             case None => Failure(NotFound))
    {
      var id := ClusterMapDocID(namespace, name);
      r := Report(o, if id in mappings then Success(mappings[id]) else Failure(NotFound));
    }

    method DeleteClusterMapping(namespace: string, name: string, o: Outcome) returns (r: Result<(), Error>)
      modifies this`mappings
      ensures mappings == if o == Failed then old(mappings) else old(mappings) - {namespace + ":" + name}
      ensures r == Report(o, Success(()))
    {
      if o != Failed {
        mappings := mappings - {ClusterMapDocID(namespace, name)};
      }
      r := Report(o, Success(()));
    }
  }
}
