/** What one simulated sample is, item by item (src/program/admission-controller.ts). */
module AdmissionEffects {
  import opened Wrappers
  import opened Totals
  import opened BudgetVectors
  import opened Estimates
  import opened DependencyOrder
  import opened Scheduling
  import opened Admission

  /** Where the draws of the groups and of the items are, and what the items then cost and take. */
  datatype Sampled = Sampled(groups: map<string, nat>, own: map<Id, nat>, costs: map<Id, Vector>, times: Durations)

  ghost predicate ItemSampled(item: WorkItem, s: Sampled, draw: nat -> Draw) {
    && item.id in s.own && item.id in s.costs && item.id in s.times && item.estimate.riskGroup in s.groups
    && var e := item.estimate;
    var value := 0.7 * draw(s.groups[e.riskGroup]) + 0.3 * draw(s.own[item.id]);
    && s.times[item.id] == Interpolate(e.duration.p50, e.duration.p90, e.duration.hardMax, value)
    && forall d :: At(s.costs[item.id], d)
                   == if d.External? && d !in e.hardMax then 0 else Interpolate(At(e.p50, d), At(e.p90, d), At(e.hardMax, d), value)
  }

  /** The success draw of an item is not above its probability. */
  ghost predicate ItemSucceeds(item: WorkItem, s: Sampled, draw: nat -> Draw) {
    && item.id in s.own && item.estimate.riskGroup in s.groups
    && 0.7 * draw(s.groups[item.estimate.riskGroup]) + 0.3 * draw(s.own[item.id] + 1) <= item.estimate.success
  }

  /** No draw serves two groups, two items, or a group and an item. */
  ghost predicate DrawsApart(s: Sampled, first: nat, next: nat) {
    && (forall g :: g in s.groups ==> first <= s.groups[g] < next)
    && (forall g, h :: g in s.groups && h in s.groups && g != h ==> s.groups[g] != s.groups[h])
    && (forall x :: x in s.own ==> first <= s.own[x] && s.own[x] + 1 < next)
    && (forall g, x :: g in s.groups && x in s.own ==> s.groups[g] != s.own[x] && s.groups[g] != s.own[x] + 1)
    && forall x, y :: x in s.own && y in s.own && x != y ==> s.own[x] != s.own[y] && s.own[x] != s.own[y] + 1
  }

  function CostsOf(picks: map<Id, Pick>): map<Id, Vector> {
    map x | x in picks :: picks[x].cost
  }

  lemma PickedOf(r: Request, order: seq<Id>, i: nat, picks: map<Id, Pick>, o: Outcome)
    requires UniqueIds(r.items) && i < |r.items| && IsSchedule(Graph(r.items), order)
    requires IsSample(ProblemOf(r), order, picks, o)
    ensures var x := r.items[i].id;
            x in order && x in picks && x in EstimatesOf(r.items) && picks[x].estimate == r.items[i].estimate == EstimatesOf(r.items)[x]
  {
    GraphMeans(r.items, i);
  }

  /** The use of the draws, without the log. */
  function Unlogged(order: seq<Id>, u: Uses, picks: map<Id, Pick>): Sampled
    requires forall x <- order :: x in u.own
  {
    Sampled(u.groups, map x | x in order :: u.own[x], CostsOf(picks), DurationsOf(picks))
  }

  lemma LogKeepsApart(order: seq<Id>, u: Uses, picks: map<Id, Pick>, first: nat, next: nat)
    requires (forall n :: n in u.log <==> first <= n < next) && forall g :: g in u.groups ==> UsedFor(u, u.groups[g], ForGroup(g))
    requires forall x <- order :: x in u.own && UsedFor(u, u.own[x], ForItem(x)) && UsedFor(u, u.own[x] + 1, ForSuccess(x))
    ensures DrawsApart(Unlogged(order, u, picks), first, next)
  {
  }

  lemma TotalIsSummed(r: Request, order: seq<Id>, picks: map<Id, Pick>, o: Outcome, d: Dimension)
    requires IsSchedule(Graph(r.items), order) && IsSample(ProblemOf(r), order, picks, o)
    ensures At(o.total, d) == At(r.fixed, d) + Total(CostsOf(picks), (v: Vector) => At(v, d))
  {
    SameSums(order, picks, d);
    SumAlongIsTotal(order, CostsOf(picks), (v: Vector) => At(v, d));
  }

  lemma {:induction false} SameSums(part: seq<Id>, picks: map<Id, Pick>, d: Dimension)
    requires forall x <- part :: x in picks
    ensures SumAlong(part, picks, Cost(d)) == SumAlong(part, CostsOf(picks), (v: Vector) => At(v, d))
    decreases |part|
  {
    if |part| > 0 {
      assert part[|part| - 1] in part;
      SameSums(part[..|part| - 1], picks, d);
    }
  }

  lemma ItemIsSampled(r: Request, order: seq<Id>, u: Uses, picks: map<Id, Pick>, o: Outcome, draw: nat -> Draw, item: WorkItem, success: Share)
    requires (forall x <- order :: x in u.own) && item.id in order && item.id in picks && picks[item.id].estimate == item.estimate
    requires Drawn(picks[item.id]) && Takes(u, item.id, item.estimate.riskGroup, picks[item.id].share, success, draw)
    ensures ItemSampled(item, Unlogged(order, u, picks), draw)
    ensures ItemSucceeds(item, Unlogged(order, u, picks), draw) <==> success <= item.estimate.success
  {
    var e, p := item.estimate, picks[item.id];
    forall d ensures At(p.cost, d)
                     == if d.External? && d !in e.hardMax then 0 else Interpolate(At(e.p50, d), At(e.p90, d), At(e.hardMax, d), p.share) {
      SampledDimensions(e, p.share, d);
    }
  }

  lemma Accepted(r: Request, order: seq<Id>, s: Sampled, draw: nat -> Draw, successes: map<Id, Share>)
    requires UniqueIds(r.items) && IsSchedule(Graph(r.items), order)
    requires forall i :: 0 <= i < |r.items| ==>
               && r.items[i].id in successes
               && (ItemSucceeds(r.items[i], s, draw) <==> successes[r.items[i].id] <= r.items[i].estimate.success)
    ensures (forall x :: x in order ==> Succeeds(ProblemOf(r), successes, x)) <==> forall i :: 0 <= i < |r.items| ==> ItemSucceeds(r.items[i], s, draw)
  {
    forall i | 0 <= i < |r.items|
      ensures r.items[i].id in order && (ItemSucceeds(r.items[i], s, draw) <==> Succeeds(ProblemOf(r), successes, r.items[i].id))
    {
      GraphMeans(r.items, i);
    }
    forall x | x in order ensures exists i :: 0 <= i < |r.items| && r.items[i].id == x {
      GraphIds(r.items, x);
    }
  }

  ghost predicate AllTake(q: Problem, order: seq<Id>, u: Uses, w: Walked, draw: nat -> Draw) {
    forall x <- order ::
      && x in q.estimates && x in w.shares && x in w.successes && x in u.own
      && Takes(u, x, q.estimates[x].riskGroup, w.shares[x], w.successes[x], draw)
  }

  lemma OneItem(
    r: Request, order: seq<Id>, u: Uses, w: Walked, picks: map<Id, Pick>, draw: nat -> Draw, first: nat, next: nat, o: Outcome, i: nat)
    requires UniqueIds(r.items) && IsSchedule(Graph(r.items), order) && i < |r.items|
    requires SampleOf(ProblemOf(r), order, picks, draw, first, next, o) && w == Walk(ProblemOf(r), order, draw, first)
    requires AllTake(ProblemOf(r), order, u, w, draw)
    ensures ItemSampled(r.items[i], Unlogged(order, u, picks), draw) && r.items[i].id in w.successes
    ensures ItemSucceeds(r.items[i], Unlogged(order, u, picks), draw)
            <==> w.successes[r.items[i].id] <= r.items[i].estimate.success
  {
    PickedOf(r, order, i, picks, o);
    ItemIsSampled(r, order, u, picks, o, draw, r.items[i], w.successes[r.items[i].id]);
  }

  lemma AllItems(
    r: Request, order: seq<Id>, u: Uses, w: Walked, picks: map<Id, Pick>, draw: nat -> Draw, first: nat, next: nat, o: Outcome)
    requires UniqueIds(r.items) && IsSchedule(Graph(r.items), order)
    requires SampleOf(ProblemOf(r), order, picks, draw, first, next, o) && w == Walk(ProblemOf(r), order, draw, first)
    requires AllTake(ProblemOf(r), order, u, w, draw)
    ensures forall i :: 0 <= i < |r.items| ==> ItemSampled(r.items[i], Unlogged(order, u, picks), draw)
    ensures o.accepted <==> forall i :: 0 <= i < |r.items| ==> ItemSucceeds(r.items[i], Unlogged(order, u, picks), draw)
  {
    var s := Unlogged(order, u, picks);
    forall i | 0 <= i < |r.items|
      ensures ItemSampled(r.items[i], s, draw) && r.items[i].id in w.successes
      ensures ItemSucceeds(r.items[i], s, draw) <==> w.successes[r.items[i].id] <= r.items[i].estimate.success
    {
      OneItem(r, order, u, w, picks, draw, first, next, o, i);
    }
    Accepted(r, order, s, draw, w.successes);
  }

  lemma AllDraws(q: Problem, order: seq<Id>, u: Uses, w: Walked, picks: map<Id, Pick>, draw: nat -> Draw, first: nat)
    requires AllTake(q, order, u, w, draw) && Logged(u, w.groups, draw, first, w.next)
    ensures DrawsApart(Unlogged(order, u, picks), first, w.next)
  {
    LogKeepsApart(order, u, picks, first, w.next);
  }

  lemma {:induction false} DrawsMade(q: Problem, part: seq<Id>, draw: nat -> Draw, first: nat)
    requires forall x <- part :: x in q.estimates
    ensures var w := Walk(q, part, draw, first); w.next == first + 2 * |part| + |w.groups.Keys|
    decreases |part|
  {
    if |part| > 0 {
      DrawsMade(q, part[..|part| - 1], draw, first);
      var w, group := Walk(q, part[..|part| - 1], draw, first), q.estimates[part[|part| - 1]].riskGroup;
      assert Walk(q, part, draw, first).groups.Keys == w.groups.Keys + {group};
    }
  }

  lemma SampleKeys(r: Request, order: seq<Id>, picks: map<Id, Pick>, o: Outcome)
    requires IsSchedule(Graph(r.items), order) && IsSample(ProblemOf(r), order, picks, o)
    ensures CostsOf(picks).Keys == DurationsOf(picks).Keys == Graph(r.items).Keys
    ensures o.finishes == Finishes(Graph(r.items), order, DurationsOf(picks))
  {
    assert picks.Keys == Graph(r.items).Keys;
  }

  lemma AllCriticalAlong(g: Dependencies, order: seq<Id>, dur: Durations, f: map<Id, int>)
    requires IsSchedule(g, order) && g.Keys == dur.Keys && f == Finishes(g, order, dur)
    ensures AllCritical(g, dur, f, order)
  {
    FinishesAreCritical(g, order, dur);
  }

  lemma ChainsTimed(g: Dependencies, order: seq<Id>, dur: Durations, f: map<Id, int>)
    requires IsSchedule(g, order) && g.Keys == dur.Keys && AllCritical(g, dur, f, order)
    ensures forall x :: x in g ==> x in f && IsCritical(g, dur, x, f[x])
  {
  }

  lemma SumsAndChains(r: Request, order: seq<Id>, picks: map<Id, Pick>, o: Outcome)
    requires IsSchedule(Graph(r.items), order) && IsSample(ProblemOf(r), order, picks, o)
    ensures forall d :: At(o.total, d) == At(r.fixed, d) + Total(CostsOf(picks), (v: Vector) => At(v, d))
    ensures CostsOf(picks).Keys == DurationsOf(picks).Keys == Graph(r.items).Keys
    ensures forall x :: x in Graph(r.items) ==> x in o.finishes && IsCritical(Graph(r.items), DurationsOf(picks), x, o.finishes[x])
  {
    forall d ensures At(o.total, d) == At(r.fixed, d) + Total(CostsOf(picks), (v: Vector) => At(v, d)) {
      TotalIsSummed(r, order, picks, o, d);
    }
    SampleKeys(r, order, picks, o);
    AllCriticalAlong(Graph(r.items), order, DurationsOf(picks), o.finishes);
    ChainsTimed(Graph(r.items), order, DurationsOf(picks), o.finishes);
  }

  /**
   * Main result: a sample gives each risk group one draw and each item two of its own, no draw
   * serving two purposes. Seven tenths of the first and three tenths of the second place the item on
   * its estimate, in cost and in time; it fails when the third puts it above its probability. Costs
   * are added to the fixed ones, and each item finishes at the end of its longest chain.
   */
  lemma SampleMeans(r: Request, order: seq<Id>, draw: nat -> Draw, first: nat, next: nat, o: Outcome) returns (s: Sampled)
    requires UniqueIds(r.items) && IsSchedule(Graph(r.items), order) && IsOutcome(ProblemOf(r), order, draw, first, next, o)
    ensures DrawsApart(s, first, next) && next == first + 2 * |order| + |s.groups.Keys|
    ensures forall i :: 0 <= i < |r.items| ==> ItemSampled(r.items[i], s, draw)
    ensures o.accepted <==> forall i :: 0 <= i < |r.items| ==> ItemSucceeds(r.items[i], s, draw)
    ensures forall d :: At(o.total, d) == At(r.fixed, d) + Total(s.costs, (v: Vector) => At(v, d))
    ensures s.costs.Keys == s.times.Keys == Graph(r.items).Keys
    ensures forall x :: x in Graph(r.items) ==> x in o.finishes && IsCritical(Graph(r.items), s.times, x, o.finishes[x])
  {
    var q := ProblemOf(r);
    var picks :| SampleOf(q, order, picks, draw, first, next, o);
    var w := Walk(q, order, draw, first);
    var u := WalkIsFair(q, order, draw, first);
    s := Unlogged(order, u, picks);
    AllDraws(q, order, u, w, picks, draw, first);
    DrawsMade(q, order, draw, first);
    AllItems(r, order, u, w, picks, draw, first, next, o);
    SumsAndChains(r, order, picks, o);
  }

  /** An edge of the graph is a dependency of an item. */
  lemma EdgesMean(items: seq<WorkItem>, x: Id, d: Id)
    requires UniqueIds(items)
    ensures (x, d) in Edges(Graph(items)) <==> exists i :: 0 <= i < |items| && items[i].id == x && d in items[i].dependsOn
  {
    GraphIds(items, x);
    forall i | 0 <= i < |items| ensures items[i].id in Graph(items) && Graph(items)[items[i].id] == items[i].dependsOn {
      GraphMeans(items, i);
    }
  }
}
