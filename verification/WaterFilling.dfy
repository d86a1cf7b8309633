/**
  What repeated allocation achieves (internal/placement/placement.go, Allocate): starting
  from empty management clusters it fills them like water, whatever order the store
  lists them in on each call.
 */
module WaterFilling {
  import opened Wrappers
  import opened Desires
  import opened Placement

  /** The quotas after one Allocate that sees `listing`; a refused one changes nothing. */
  function AfterOne(quotas: Quotas, listing: seq<MC>): (r: Quotas)
    requires Lists(listing, quotas.Keys)
    ensures r.Keys == quotas.Keys
  {
    match Choose(quotas, listing)
    case Some(mc) => Adjusted(quotas, mc, 1)
    case None => quotas
  }

  ghost predicate AllList(listings: seq<seq<MC>>, mcs: set<MC>) {
    forall i :: 0 <= i < |listings| ==> Lists(listings[i], mcs)
  }

  /** A run of Allocates, the k-th of which sees the k-th listing. */
  function Fill(quotas: Quotas, listings: seq<seq<MC>>): (r: Quotas)
    requires AllList(listings, quotas.Keys)
    ensures r.Keys == quotas.Keys
  {
    if listings == [] then quotas else Fill(AfterOne(quotas, listings[0]), listings[1..])
  }

  /** How many of them were granted. */
  function Granted(quotas: Quotas, listings: seq<seq<MC>>): nat
    requires AllList(listings, quotas.Keys)
  {
    if listings == [] then 0
    else (if Choose(quotas, listings[0]).Some? then 1 else 0)
         + Granted(AfterOne(quotas, listings[0]), listings[1..])
  }

  function Max0(n: int): int { if n < 0 then 0 else n }

  ghost predicate Empty(quotas: Quotas) {
    forall mc :: mc in quotas ==> quotas[mc].load == 0
  }

  /** No management cluster stands more than one above one that still has room. */
  ghost predicate Level(quotas: Quotas) {
    && (forall mc :: mc in quotas ==> 0 <= quotas[mc].load <= Max0(quotas[mc].capacity))
    && (forall high, low :: high in quotas && low in quotas && quotas[low].HasRoom() ==>
          quotas[high].load <= quotas[low].load + 1)
  }

  lemma AfterOneStaysLevel(quotas: Quotas, listing: seq<MC>)
    requires Lists(listing, quotas.Keys) && Level(quotas)
    ensures Level(AfterOne(quotas, listing))
  {
    match Choose(quotas, listing)
    case None =>
    case Some(best) =>
      ChooseIsLeastLoaded(quotas, listing);
      var next := Adjusted(quotas, best, 1);
      forall high, low | high in next && low in next && next[low].HasRoom()
        ensures next[high].load <= next[low].load + 1
      {
        assert quotas[low].HasRoom();
      }
  }

  lemma {:induction false} FillStaysLevel(quotas: Quotas, listings: seq<seq<MC>>)
    requires Level(quotas) && AllList(listings, quotas.Keys)
    ensures Level(Fill(quotas, listings))
  {
    if listings != [] {
      AfterOneStaysLevel(quotas, listings[0]);
      FillStaysLevel(AfterOne(quotas, listings[0]), listings[1..]);
    }
  }

  // Sums over the management clusters, taken along one listing.

  function Total(ids: seq<MC>, amounts: map<MC, int>): int
    requires forall mc :: mc in ids ==> mc in amounts
  {
    if ids == [] then 0 else amounts[ids[0]] + Total(ids[1..], amounts)
  }

  function Loads(quotas: Quotas): map<MC, int> { map mc | mc in quotas :: quotas[mc].load }

  function Capacities(quotas: Quotas): map<MC, int> { map mc | mc in quotas :: Max0(quotas[mc].capacity) }

  /** Pointwise smaller amounts have a smaller total; strictly, if one of them is. */
  lemma {:induction false} TotalMonotone(ids: seq<MC>, a: map<MC, int>, b: map<MC, int>)
    requires forall mc :: mc in ids ==> mc in a && mc in b && a[mc] <= b[mc]
    ensures Total(ids, a) <= Total(ids, b)
    ensures (exists mc :: mc in ids && a[mc] < b[mc]) ==> Total(ids, a) < Total(ids, b)
  {
    if ids != [] {
      TotalMonotone(ids[1..], a, b);
      assert forall mc :: mc in ids ==> mc == ids[0] || mc in ids[1..];
    }
  }

  lemma {:induction false} TotalAdjusted(ids: seq<MC>, a: map<MC, int>, mc: MC, delta: int)
    requires forall i, j :: 0 <= i < j < |ids| ==> ids[i] != ids[j]
    requires forall m :: m in ids ==> m in a
    requires mc in a
    ensures Total(ids, a[mc := a[mc] + delta]) == Total(ids, a) + if mc in ids then delta else 0
  {
    if ids != [] {
      TotalAdjusted(ids[1..], a, mc, delta);
      assert forall m :: m in ids <==> m == ids[0] || m in ids[1..];
    }
  }

  /** A granted Allocate raises the total load by one. */
  lemma OneAllocation(quotas: Quotas, listing: seq<MC>, ids: seq<MC>)
    requires Lists(ids, quotas.Keys) && Lists(listing, quotas.Keys)
    ensures Total(ids, Loads(AfterOne(quotas, listing)))
            == Total(ids, Loads(quotas)) + if Choose(quotas, listing).Some? then 1 else 0
  {
    match Choose(quotas, listing)
    case Some(mc) =>
      TotalAdjusted(ids, Loads(quotas), mc, 1);
      assert Loads(AfterOne(quotas, listing)) == Loads(quotas)[mc := Loads(quotas)[mc] + 1];
    case None =>
  }

  lemma AfterOneKeepsCapacities(quotas: Quotas, listing: seq<MC>)
    requires Lists(listing, quotas.Keys)
    ensures Capacities(AfterOne(quotas, listing)) == Capacities(quotas)
  {
  }

  /** An Allocate is refused exactly when the total capacity is used up. */
  lemma RefusedWhenFull(quotas: Quotas, listing: seq<MC>, ids: seq<MC>)
    requires Lists(ids, quotas.Keys) && Lists(listing, quotas.Keys) && Level(quotas)
    ensures Total(ids, Loads(quotas)) <= Total(ids, Capacities(quotas))
    ensures Choose(quotas, listing).None? <==> Total(ids, Loads(quotas)) == Total(ids, Capacities(quotas))
  {
    ChooseIsLeastLoaded(quotas, listing);
    TotalMonotone(ids, Loads(quotas), Capacities(quotas));
    match Choose(quotas, listing)
    case Some(mc) =>
      assert mc in ids && Loads(quotas)[mc] < Capacities(quotas)[mc];
    case None =>
      TotalMonotone(ids, Capacities(quotas), Loads(quotas));
  }

  /** The granted allocations are exactly the load added, and of any k allocations as many
      are granted as there is capacity left, up to k. */
  lemma {:induction false} GrantedIsMin(quotas: Quotas, listings: seq<seq<MC>>, ids: seq<MC>)
    requires Lists(ids, quotas.Keys) && Level(quotas) && AllList(listings, quotas.Keys)
    ensures Total(ids, Loads(Fill(quotas, listings))) == Total(ids, Loads(quotas)) + Granted(quotas, listings)
    ensures var left := Total(ids, Capacities(quotas)) - Total(ids, Loads(quotas));
            Granted(quotas, listings) == if |listings| < left then |listings| else left
  {
    if listings == [] {
      TotalMonotone(ids, Loads(quotas), Capacities(quotas));
    } else {
      var next := AfterOne(quotas, listings[0]);
      OneAllocation(quotas, listings[0], ids);
      AfterOneKeepsCapacities(quotas, listings[0]);
      RefusedWhenFull(quotas, listings[0], ids);
      AfterOneStaysLevel(quotas, listings[0]);
      assert AllList(listings[1..], next.Keys);
      GrantedIsMin(next, listings[1..], ids);
      assert Fill(quotas, listings) == Fill(next, listings[1..]);
    }
  }

  lemma {:induction false} EmptyTotal(ids: seq<MC>, quotas: Quotas)
    requires Empty(quotas) && forall mc :: mc in ids ==> mc in quotas
    ensures Total(ids, Loads(quotas)) == 0
  {
    if ids != [] {
      EmptyTotal(ids[1..], quotas);
    }
  }

  /** From empty management clusters, exactly min(k, total capacity) of k Allocates are granted. */
  lemma GrantedFromEmpty(quotas: Quotas, listings: seq<seq<MC>>, ids: seq<MC>)
    requires Lists(ids, quotas.Keys) && Empty(quotas) && AllList(listings, quotas.Keys)
    ensures Level(Fill(quotas, listings))
    ensures Total(ids, Loads(Fill(quotas, listings))) == Granted(quotas, listings)
    ensures var capacity := Total(ids, Capacities(quotas));
            Granted(quotas, listings) == if |listings| < capacity then |listings| else capacity
  {
    EmptyTotal(ids, quotas);
    GrantedIsMin(quotas, listings, ids);
    FillStaysLevel(quotas, listings);
  }

  /** `d` spreads clusters over the management clusters within their capacities. */
  ghost predicate Feasible(d: map<MC, int>, quotas: Quotas) {
    d.Keys == quotas.Keys && forall mc :: mc in quotas ==> 0 <= d[mc] <= Max0(quotas[mc].capacity)
  }

  /** Allocation minimises the maximum load: any feasible way to place as many clusters
      loads some management cluster at least as much as allocation loads its fullest. */
  lemma MaxLoadIsMinimal(quotas: Quotas, listings: seq<seq<MC>>, ids: seq<MC>, d: map<MC, int>, full: MC)
    requires Lists(ids, quotas.Keys) && AllList(listings, quotas.Keys)
    requires Empty(quotas) && full in quotas
    requires Feasible(d, quotas) && Total(ids, d) == Granted(quotas, listings)
    ensures exists mc :: mc in d && d[mc] >= Fill(quotas, listings)[full].load
  {
    var q := Fill(quotas, listings);
    GrantedFromEmpty(quotas, listings, ids);
    FillKeepsCapacities(quotas, listings);
    if forall mc :: mc in d ==> d[mc] < q[full].load {
      assert d[full] < Loads(q)[full] && full in ids;
      TotalMonotone(ids, d, Loads(q));
      assert false;
    }
  }

  lemma {:induction false} FillKeepsCapacities(quotas: Quotas, listings: seq<seq<MC>>)
    requires AllList(listings, quotas.Keys)
    ensures forall mc :: mc in quotas ==> Fill(quotas, listings)[mc].capacity == quotas[mc].capacity
  {
    if listings != [] {
      FillKeepsCapacities(AfterOne(quotas, listings[0]), listings[1..]);
    }
  }
}
