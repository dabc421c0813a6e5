/** The admission simulation (src/program/admission-controller.ts), for any stream of random draws. */
module Admission {
  import opened Wrappers
  import opened Totals
  import opened BudgetVectors
  import Graphs
  import opened Estimates
  import opened DependencyOrder
  import opened Scheduling

  type Draw = r: real | 0.0 <= r < 1.0
  type Share = r: real | 0.0 <= r <= 1.0

  datatype WorkItem = WorkItem(id: Id, dependsOn: seq<Id>, estimate: Estimate)

  datatype Request = Request(
    items: seq<WorkItem>, limit: Vector, fixed: Vector, deadline: Option<int>, fixedDuration: int, target: real, samples: int)

  datatype AdmissionError = TooFewSamples | TargetOutOfRange | DuplicateIds | MissingDependency | DependencyCycle | TotalOverflow

  datatype Probabilities = Probabilities(joint: real, budget: real, deadline: real, acceptance: real)
  datatype Decision = Decision(calibrated: bool, feasible: bool, requiresHumanApproval: bool, probabilities: Option<Probabilities>)

  // ----- The request as a graph -----

  function Graph(items: seq<WorkItem>): Dependencies {
    if |items| == 0 then map[]
    else Graph(items[..|items| - 1])[items[|items| - 1].id := items[|items| - 1].dependsOn]
  }

  function EstimatesOf(items: seq<WorkItem>): map<Id, Estimate> {
    if |items| == 0 then map[]
    else EstimatesOf(items[..|items| - 1])[items[|items| - 1].id := items[|items| - 1].estimate]
  }

  function Ids(items: seq<WorkItem>): seq<Id> {
    seq(|items|, i requires 0 <= i < |items| => items[i].id)
  }

  lemma GraphKeys(items: seq<WorkItem>)
    ensures EstimatesOf(items).Keys == Graph(items).Keys
    ensures forall i :: i in Ids(items) <==> i in Graph(items)
  {
    if |items| > 0 {
      var init := items[..|items| - 1];
      GraphKeys(init);
      assert Ids(items) == Ids(init) + [items[|items| - 1].id];
    }
  }

  // ----- One sample -----

  /** The estimate of an item, where on it the draw fell, and the cost and the time found there. */
  datatype Pick = Pick(estimate: Estimate, share: Share, cost: Vector, duration: nat)

  ghost predicate Drawn(p: Pick) {
    && (forall d :: At(p.cost, d) == SampleAt(p.estimate, p.share, d))
    && p.duration == Interpolate(p.estimate.duration.p50, p.estimate.duration.p90, p.estimate.duration.hardMax, p.share)
  }

  method DrawPick(e: Estimate, share: Share) returns (p: Pick)
    ensures Drawn(p) && WithinHard(p) && p.estimate == e && p.share == share
  {
    var cost := SampleVector(e, share);
    InterpolateInRange(e.duration.p50, e.duration.p90, e.duration.hardMax, share);
    p := Pick(e, share, cost, Interpolate(e.duration.p50, e.duration.p90, e.duration.hardMax, share));
    DrawnIsWithinHard(p);
  }

  /** A pick from an ordered estimate stays within its hard maximum. */
  ghost predicate WithinHard(p: Pick) {
    Ordered(p.estimate) ==> (forall d :: At(p.cost, d) <= At(p.estimate.hardMax, d)) && p.duration <= p.estimate.duration.hardMax
  }

  ghost predicate AllWithinHard(picks: map<Id, Pick>) {
    forall x :: x in picks ==> WithinHard(picks[x])
  }

  lemma OneMoreWithinHard(picks: map<Id, Pick>, x: Id, p: Pick)
    requires AllWithinHard(picks) && WithinHard(p)
    ensures AllWithinHard(picks[x := p])
  {
  }

  lemma DrawnIsWithinHard(p: Pick)
    requires Drawn(p)
    ensures WithinHard(p)
  {
    if Ordered(p.estimate) {
      forall d ensures At(p.cost, d) <= At(p.estimate.hardMax, d) {
        SampleWithinHardMax(p.estimate, p.share, d);
      }
      InterpolateMonotone(p.estimate.duration.p50, p.estimate.duration.p90, p.estimate.duration.hardMax, p.share, p.share);
    }
  }

  function DurationsOf(picks: map<Id, Pick>): Durations {
    map x | x in picks :: picks[x].duration
  }

  function HardDurations(estimates: map<Id, Estimate>): Durations {
    map x | x in estimates :: estimates[x].duration.hardMax
  }

  function Cost(d: Dimension): Pick -> int {
    (p: Pick) => At(p.cost, d)
  }

  function Hard(d: Dimension): Estimate -> int {
    (e: Estimate) => At(e.hardMax, d)
  }

  /** Fixed costs and every hard maximum together fit the limit. */
  ghost predicate BudgetGuaranteed(r: Request) {
    && (forall x <- EstimatesOf(r.items).Values :: Ordered(x))
    && forall d :: At(r.fixed, d) + Total(EstimatesOf(r.items), Hard(d)) <= At(r.limit, d)
  }

  /** No dependency chain at its hard maximum ends after the deadline. */
  ghost predicate DeadlineGuaranteed(r: Request) {
    && (forall x <- EstimatesOf(r.items).Values :: Ordered(x))
    && Graph(r.items).Keys <= HardDurations(EstimatesOf(r.items)).Keys
    && (r.deadline.Some? ==>
          r.fixedDuration <= r.deadline.value
          && ChainsWithin(Graph(r.items), HardDurations(EstimatesOf(r.items)), r.deadline.value - r.fixedDuration))
  }

  ghost predicate AllCertain(est: map<Id, Estimate>) {
    forall x <- est.Keys :: est[x].success == 1.0
  }

  ghost predicate SuccessCertain(r: Request) {
    AllCertain(EstimatesOf(r.items))
  }

  /** What a simulation reads of a request. */
  datatype Problem = Problem(graph: Dependencies, estimates: map<Id, Estimate>, fixed: Vector)

  function ProblemOf(r: Request): Problem {
    Problem(Graph(r.items), EstimatesOf(r.items), r.fixed)
  }

  /** The items of a run of one sample, after part of the order. */
  ghost predicate Progress(est: map<Id, Estimate>, g: Dependencies, part: seq<Id>, picks: map<Id, Pick>, finishes: map<Id, int>) {
    && (forall x :: x in part <==> x in picks)
    && (forall x <- part :: x in est && x in g && picks[x].estimate == est[x])
    && finishes == Finishes(g, part, DurationsOf(picks))
  }

  ghost predicate Summed(fixed: Vector, part: seq<Id>, picks: map<Id, Pick>, total: Vector)
    requires forall x <- part :: x in picks
  {
    forall d :: At(total, d) == At(fixed, d) + SumAlong(part, picks, Cost(d))
  }

  lemma FinishesSame(g: Dependencies, part: seq<Id>, a: Durations, b: Durations)
    requires forall x <- part :: x in g && x in a && x in b && a[x] == b[x]
    ensures Finishes(g, part, a) == Finishes(g, part, b)
  {
  }

  lemma FinishesNext(g: Dependencies, part: seq<Id>, x: Id, dur: Durations)
    requires (forall y <- part :: y in g && y in dur) && x in g && x in dur
    ensures Finishes(g, part + [x], dur) == Finishes(g, part, dur)[x := StartOf(Finishes(g, part, dur), g[x]) + dur[x]]
  {
  }

  lemma FinishesOne(est: map<Id, Estimate>, g: Dependencies, part: seq<Id>, picks: map<Id, Pick>, finishes: map<Id, int>, x: Id, p: Pick)
    requires Progress(est, g, part, picks, finishes) && x !in part && x in g
    ensures (forall y <- part + [x] :: y in g && y in DurationsOf(picks[x := p]))
    ensures Finishes(g, part + [x], DurationsOf(picks[x := p])) == finishes[x := StartOf(finishes, g[x]) + p.duration]
  {
    OneMoreDuration(picks, x, p);
    FinishesSame(g, part, DurationsOf(picks), DurationsOf(picks[x := p]));
    FinishesNext(g, part, x, DurationsOf(picks[x := p]));
  }

  lemma ProgressOne(est: map<Id, Estimate>, g: Dependencies, part: seq<Id>, picks: map<Id, Pick>, finishes: map<Id, int>, x: Id, p: Pick)
    requires Progress(est, g, part, picks, finishes) && x !in part && x in est && x in g && p.estimate == est[x]
    ensures Progress(est, g, part + [x], picks[x := p], finishes[x := StartOf(finishes, g[x]) + p.duration])
  {
    FinishesOne(est, g, part, picks, finishes, x, p);
  }

  lemma OneMoreDuration(picks: map<Id, Pick>, x: Id, p: Pick)
    ensures DurationsOf(picks[x := p]) == DurationsOf(picks)[x := p.duration]
  {
  }

  lemma SummedOne(fixed: Vector, part: seq<Id>, picks: map<Id, Pick>, total: Vector, x: Id, p: Pick)
    requires (forall y :: y in part <==> y in picks) && Summed(fixed, part, picks, total) && x !in part && AddFits(total, p.cost)
    ensures Summed(fixed, part + [x], picks[x := p], Plus(total, p.cost))
  {
    forall d ensures At(Plus(total, p.cost), d) == At(fixed, d) + SumAlong(part + [x], picks[x := p], Cost(d)) {
      assert (part + [x])[..|part|] == part;
      SumAlongSame(part, picks, picks[x := p], Cost(d));
    }
  }

  lemma {:induction false} SamplesBelowHard(part: seq<Id>, picks: map<Id, Pick>, est: map<Id, Estimate>, d: Dimension)
    requires (forall x <- part :: x in picks && x in est && Ordered(est[x]) && picks[x].estimate == est[x])
    requires forall x <- part :: WithinHard(picks[x])
    ensures SumAlong(part, picks, Cost(d)) <= SumAlong(part, est, Hard(d))
    decreases |part|
  {
    if |part| > 0 {
      var x := part[|part| - 1];
      assert x in part;
      SamplesBelowHard(part[..|part| - 1], picks, est, d);
    }
  }

  lemma {:induction false} HardGrows(order: seq<Id>, n: nat, est: map<Id, Estimate>, d: Dimension)
    requires n <= |order| && forall x <- order :: x in est
    ensures SumAlong(order[..n], est, Hard(d)) <= SumAlong(order, est, Hard(d))
    decreases |order| - n
  {
    if n < |order| {
      assert order[..n + 1][..n] == order[..n] && order[n] in order;
      HardGrows(order, n + 1, est, d);
    } else {
      assert order[..n] == order;
    }
  }

  /** What the samples of a part of the order add stays within what all hard maxima add. */
  lemma PartWithin(r: Request, order: seq<Id>, n: nat, picks: map<Id, Pick>, d: Dimension)
    requires BudgetGuaranteed(r) && IsSchedule(Graph(r.items), order) && n <= |order|
    requires forall x <- order[..n] :: x in picks && x in EstimatesOf(r.items) && picks[x].estimate == EstimatesOf(r.items)[x]
    requires forall x <- order[..n] :: WithinHard(picks[x])
    ensures At(r.fixed, d) + SumAlong(order[..n], picks, Cost(d)) <= At(r.limit, d)
  {
    var est := EstimatesOf(r.items);
    GraphKeys(r.items);
    forall x | x in order ensures x in est && Ordered(est[x]) {
      assert est[x] in est.Values;
    }
    SamplesBelowHard(order[..n], picks, est, d);
    HardGrows(order, n, est, d);
    SumAlongIsTotal(order, est, Hard(d));
  }

  /** The draw of an item, mixed from the draw of its risk group and one of its own. */
  function Mixed(shared: Draw, own: Draw): Share {
    Smaller(1.0, 0.7 * shared + 0.3 * own)
  }

  function Smaller(x: real, y: real): real {
    if x < y then x else y
  }

  datatype Outcome = Outcome(total: Vector, finishes: map<Id, int>, accepted: bool)

  /** The simulation of a part of the items: all picked, the costs summed, every chain timed. */
  ghost predicate IsSample(q: Problem, part: seq<Id>, picks: map<Id, Pick>, o: Outcome) {
    && Progress(q.estimates, q.graph, part, picks, o.finishes)
    && Summed(q.fixed, part, picks, o.total)
    && AllWithinHard(picks)
    && (AllCertain(q.estimates) ==> o.accepted)
  }

  /** The draws of part of the items, taken from a stream: those of risk groups, and the shares mixed from them. */
  datatype Walked = Walked(groups: map<string, Draw>, next: nat, shares: map<Id, Share>, successes: map<Id, Share>)

  /** A group's draw is the one it has, or the next of the stream. */
  function GroupDraw(w: Walked, group: string, draw: nat -> Draw): Draw {
    if group in w.groups then w.groups[group] else draw(w.next)
  }

  function AfterGroup(w: Walked, group: string): nat {
    if group in w.groups then w.next else w.next + 1
  }

  function WalkOne(w: Walked, x: Id, group: string, draw: nat -> Draw): Walked {
    var shared, n := GroupDraw(w, group, draw), AfterGroup(w, group);
    Walked(w.groups[group := shared], n + 2, w.shares[x := Mixed(shared, draw(n))], w.successes[x := Mixed(shared, draw(n + 1))])
  }

  function Walk(q: Problem, part: seq<Id>, draw: nat -> Draw, first: nat): Walked
    requires forall x <- part :: x in q.estimates
  {
    if |part| == 0 then Walked(map[], first, map[], map[])
    else
      var x := part[|part| - 1];
      WalkOne(Walk(q, part[..|part| - 1], draw, first), x, q.estimates[x].riskGroup, draw)
  }

  lemma WalkNext(q: Problem, part: seq<Id>, x: Id, draw: nat -> Draw, first: nat)
    requires x in q.estimates && forall y <- part :: y in q.estimates
    ensures Walk(q, part + [x], draw, first) == WalkOne(Walk(q, part, draw, first), x, q.estimates[x].riskGroup, draw)
  {
    assert (part + [x])[..|part|] == part;
  }

  // ----- Which draw is used for what -----

  /** What a draw is for: a risk group, an item's cost and time, or an item's success. */
  datatype Use = ForGroup(group: string) | ForItem(item: Id) | ForSuccess(succeeding: Id)

  /** The use of each draw made so far, and where the draws of the groups and of the items are. */
  datatype Uses = Uses(log: map<nat, Use>, groups: map<string, nat>, own: map<Id, nat>)

  predicate UsedFor(u: Uses, n: nat, use: Use) {
    n in u.log && u.log[n] == use
  }

  /** Each of these draws is used for one thing, and each group has one, with this value. */
  ghost predicate Logged(u: Uses, groups: map<string, Draw>, draw: nat -> Draw, first: nat, next: nat) {
    && first <= next && (forall n :: n in u.log <==> first <= n < next)
    && u.groups.Keys == groups.Keys
    && forall g :: g in groups ==> UsedFor(u, u.groups[g], ForGroup(g)) && groups[g] == draw(u.groups[g])
  }

  /** The shares of an item are seven tenths its group's draw and three tenths a draw that is used for it alone. */
  ghost predicate Takes(u: Uses, x: Id, group: string, share: Share, success: Share, draw: nat -> Draw) {
    && group in u.groups && x in u.own
    && UsedFor(u, u.groups[group], ForGroup(group)) && UsedFor(u, u.own[x], ForItem(x)) && UsedFor(u, u.own[x] + 1, ForSuccess(x))
    && share == 0.7 * draw(u.groups[group]) + 0.3 * draw(u.own[x])
    && success == 0.7 * draw(u.groups[group]) + 0.3 * draw(u.own[x] + 1)
  }

  function WithGroup(u: Uses, group: string, n: nat): Uses {
    Uses(u.log[n := ForGroup(group)], u.groups[group := n], u.own)
  }

  function WithItem(u: Uses, x: Id, n: nat): Uses {
    Uses(u.log[n := ForItem(x)][n + 1 := ForSuccess(x)], u.groups, u.own[x := n])
  }

  function UsesAfter(u: Uses, w: Walked, x: Id, group: string): Uses {
    WithItem(if group in w.groups then u else WithGroup(u, group, w.next), x, AfterGroup(w, group))
  }

  lemma LoggedItem(u: Uses, groups: map<string, Draw>, x: Id, draw: nat -> Draw, first: nat, n: nat)
    requires Logged(u, groups, draw, first, n)
    ensures Logged(WithItem(u, x, n), groups, draw, first, n + 2)
  {
    forall g | g in groups ensures UsedFor(WithItem(u, x, n), u.groups[g], ForGroup(g)) {
      assert UsedFor(u, u.groups[g], ForGroup(g));
    }
  }

  lemma LoggedGroup(u: Uses, groups: map<string, Draw>, group: string, draw: nat -> Draw, first: nat, n: nat)
    requires Logged(u, groups, draw, first, n) && group !in groups
    ensures Logged(WithGroup(u, group, n), groups[group := draw(n)], draw, first, n + 1)
  {
    forall g | g in groups ensures UsedFor(WithGroup(u, group, n), u.groups[g], ForGroup(g)) {
      assert UsedFor(u, u.groups[g], ForGroup(g));
    }
  }

  lemma LoggedKnown(u: Uses, w: Walked, x: Id, group: string, draw: nat -> Draw, first: nat)
    requires Logged(u, w.groups, draw, first, w.next) && group in w.groups
    ensures Logged(UsesAfter(u, w, x, group), WalkOne(w, x, group, draw).groups, draw, first, WalkOne(w, x, group, draw).next)
  {
    assert w.groups[group := w.groups[group]] == w.groups;
    LoggedItem(u, w.groups, x, draw, first, w.next);
  }

  lemma NewGroupSteps(u: Uses, w: Walked, x: Id, group: string, draw: nat -> Draw)
    requires group !in w.groups
    ensures UsesAfter(u, w, x, group) == WithItem(WithGroup(u, group, w.next), x, w.next + 1)
    ensures WalkOne(w, x, group, draw).groups == w.groups[group := draw(w.next)] && WalkOne(w, x, group, draw).next == w.next + 3
  {
  }

  lemma LoggedNew(u: Uses, w: Walked, x: Id, group: string, draw: nat -> Draw, first: nat)
    requires Logged(u, w.groups, draw, first, w.next) && group !in w.groups
    ensures Logged(UsesAfter(u, w, x, group), WalkOne(w, x, group, draw).groups, draw, first, WalkOne(w, x, group, draw).next)
  {
    LoggedGroup(u, w.groups, group, draw, first, w.next);
    LoggedItem(WithGroup(u, group, w.next), w.groups[group := draw(w.next)], x, draw, first, w.next + 1);
    NewGroupSteps(u, w, x, group, draw);
  }

  lemma LoggedOne(u: Uses, w: Walked, x: Id, group: string, draw: nat -> Draw, first: nat)
    requires Logged(u, w.groups, draw, first, w.next)
    ensures Logged(UsesAfter(u, w, x, group), WalkOne(w, x, group, draw).groups, draw, first, WalkOne(w, x, group, draw).next)
  {
    if group in w.groups {
      LoggedKnown(u, w, x, group, draw, first);
    } else {
      LoggedNew(u, w, x, group, draw, first);
    }
  }

  lemma TakesNew(u: Uses, w: Walked, x: Id, group: string, draw: nat -> Draw, first: nat)
    requires Logged(u, w.groups, draw, first, w.next)
    ensures var w' := WalkOne(w, x, group, draw);
            Takes(UsesAfter(u, w, x, group), x, group, w'.shares[x], w'.successes[x], draw)
  {
    if group in w.groups {
      assert UsedFor(u, u.groups[group], ForGroup(group));
    }
  }

  lemma TakesStays(u: Uses, w: Walked, x: Id, group: string, y: Id, other: string, share: Share, success: Share, draw: nat -> Draw, first: nat)
    requires Logged(u, w.groups, draw, first, w.next) && y != x && Takes(u, y, other, share, success, draw)
    ensures Takes(UsesAfter(u, w, x, group), y, other, share, success, draw)
  {
  }

  /**
   * Items of one risk group share one draw, and no other draw is used for two things: the shares of
   * a sample are mixed from independent draws.
   */
  lemma {:induction false} WalkIsFair(q: Problem, part: seq<Id>, draw: nat -> Draw, first: nat) returns (u: Uses)
    requires Distinct(part) && forall x <- part :: x in q.estimates
    ensures var w := Walk(q, part, draw, first);
            && Logged(u, w.groups, draw, first, w.next)
            && forall x <- part ::
                 x in w.shares && x in w.successes && Takes(u, x, q.estimates[x].riskGroup, w.shares[x], w.successes[x], draw)
    decreases |part|
  {
    if |part| == 0 {
      u := Uses(map[], map[], map[]);
    } else {
      var init, x := part[..|part| - 1], part[|part| - 1];
      assert part == init + [x];
      var before := WalkIsFair(q, init, draw, first);
      var w, group := Walk(q, init, draw, first), q.estimates[x].riskGroup;
      u := UsesAfter(before, w, x, group);
      LoggedOne(before, w, x, group, draw, first);
      TakesNew(before, w, x, group, draw, first);
      forall y | y in init ensures Takes(u, y, q.estimates[y].riskGroup, w.shares[y], w.successes[y], draw) {
        TakesStays(before, w, x, group, y, q.estimates[y].riskGroup, w.shares[y], w.successes[y], draw, first);
      }
    }
  }

  predicate Succeeds(q: Problem, successes: map<Id, Share>, x: Id) {
    x in q.estimates && x in successes && successes[x] <= q.estimates[x].success
  }

  /** The picks have these shares, and the outcome is accepted when no success draw is too high. */
  ghost predicate Follows(q: Problem, part: seq<Id>, picks: map<Id, Pick>, accepted: bool, shares: map<Id, Share>, successes: map<Id, Share>) {
    && (forall x :: x in part ==> x in picks && x in shares && picks[x].share == shares[x])
    && (accepted <==> forall x :: x in part ==> Succeeds(q, successes, x))
  }

  lemma FollowsOne(
    q: Problem, part: seq<Id>, picks: map<Id, Pick>, accepted: bool, shares: map<Id, Share>, successes: map<Id, Share>,
    x: Id, p: Pick, share: Share, success: Share)
    requires Follows(q, part, picks, accepted, shares, successes) && x !in part && x in q.estimates && p.share == share
    ensures Follows(q, part + [x], picks[x := p], accepted && success <= q.estimates[x].success, shares[x := share], successes[x := success])
  {
    var more := successes[x := success];
    forall y | y in part ensures Succeeds(q, successes, y) <==> Succeeds(q, more, y) {
    }
    assert Succeeds(q, more, x) <==> success <= q.estimates[x].success;
    assert forall y :: y in part + [x] <==> y in part || y == x;
  }

  /** The variables of the pass over the ordered items. */
  datatype Pass = Pass(groups: map<string, Draw>, outcome: Outcome, next: nat)

  /** The draw shared by a risk group: made once, by the first item of the group. */
  method SharedDraw(group: string, draw: nat -> Draw, v: Pass, ghost w: Walked) returns (shared: Draw, v': Pass)
    requires v.groups == w.groups && v.next == w.next
    ensures shared == GroupDraw(w, group, draw) && v' == Pass(w.groups[group := shared], v.outcome, AfterGroup(w, group))
  {
    if group in v.groups {
      assert v.groups[group := v.groups[group]] == v.groups;
      return v.groups[group], v;
    }
    shared := draw(v.next);
    v' := v.(groups := v.groups[group := shared], next := v.next + 1);
  }

  /** The next item: its cost is added, its finish time set and its success drawn. */
  method PassItem(q: Problem, ghost part: seq<Id>, x: Id, p: Pick, success: Share, o: Outcome, ghost picks: map<Id, Pick>) returns (after: Option<Outcome>)
    requires IsSample(q, part, picks, o) && x !in part
    requires x in q.estimates && x in q.graph && p.estimate == q.estimates[x] && WithinHard(p)
    ensures after.Some? ==> IsSample(q, part + [x], picks[x := p], after.value)
                            && after.value.accepted == (o.accepted && success <= p.estimate.success)
    ensures after.None? ==> !AddFits(o.total, p.cost)
  {
    var start := StartOf(o.finishes, q.graph[x]);
    var sum := AddBudgetVectors(o.total, p.cost);
    if sum.Failure? {
      return None;
    }
    var accepted := o.accepted && !(success > p.estimate.success);
    after := Some(Outcome(sum.value, o.finishes[x := start + p.duration], accepted));
    SampleExtends(q, part, picks, o, x, p, after.value);
  }

  lemma SampleExtends(q: Problem, part: seq<Id>, picks: map<Id, Pick>, o: Outcome, x: Id, p: Pick, after: Outcome)
    requires Progress(q.estimates, q.graph, part, picks, o.finishes) && Summed(q.fixed, part, picks, o.total)
    requires AllWithinHard(picks) && (AllCertain(q.estimates) ==> o.accepted) && x !in part
    requires x in q.estimates && x in q.graph && p.estimate == q.estimates[x] && WithinHard(p)
    requires AddFits(o.total, p.cost) && after.total == Plus(o.total, p.cost)
    requires after.finishes == o.finishes[x := StartOf(o.finishes, q.graph[x]) + p.duration]
    requires AllCertain(q.estimates) && o.accepted ==> after.accepted
    ensures IsSample(q, part + [x], picks[x := p], after)
  {
    OneMoreWithinHard(picks, x, p);
    ProgressOne(q.estimates, q.graph, part, picks, o.finishes, x, p);
    SummedOne(q.fixed, part, picks, o.total, x, p);
    Assemble(q, part + [x], picks[x := p], after);
  }

  lemma Assemble(q: Problem, part: seq<Id>, picks: map<Id, Pick>, o: Outcome)
    requires Progress(q.estimates, q.graph, part, picks, o.finishes) && Summed(q.fixed, part, picks, o.total)
    requires AllWithinHard(picks) && (AllCertain(q.estimates) ==> o.accepted)
    ensures IsSample(q, part, picks, o)
  {
  }

  lemma NextOf(order: seq<Id>, i: nat)
    requires Distinct(order) && i < |order|
    ensures order[i] !in order[..i] && order[i] in order
    ensures order[..i] + [order[i]] == order[..i + 1]
  {
  }

  ghost predicate AllDrawn(picks: map<Id, Pick>) {
    forall x :: x in picks ==> Drawn(picks[x])
  }

  lemma OneMoreDrawn(picks: map<Id, Pick>, x: Id, p: Pick)
    requires AllDrawn(picks) && Drawn(p)
    ensures AllDrawn(picks[x := p])
  {
  }

  /** One sample of the items in this order, with the draws from first on and before next. */
  ghost predicate SampleOf(q: Problem, order: seq<Id>, picks: map<Id, Pick>, draw: nat -> Draw, first: nat, next: nat, o: Outcome) {
    && IsSample(q, order, picks, o) && AllDrawn(picks)
    && (forall x <- order :: x in q.estimates)
    && var w := Walk(q, order, draw, first);
       next == w.next && Follows(q, order, picks, o.accepted, w.shares, w.successes)
  }

  ghost predicate IsOutcome(q: Problem, order: seq<Id>, draw: nat -> Draw, first: nat, next: nat, o: Outcome) {
    exists picks :: SampleOf(q, order, picks, draw, first, next, o)
  }

  /** The draws of the next item: its group's, then its own two. */
  method DrawItem(q: Problem, ghost part: seq<Id>, x: Id, draw: nat -> Draw, v: Pass, ghost w: Walked)
    returns (share: Share, success: Share, v': Pass, ghost w': Walked)
    requires x in q.estimates && v.groups == w.groups && v.next == w.next
    ensures w' == WalkOne(w, x, q.estimates[x].riskGroup, draw)
    ensures w'.shares == w.shares[x := share] && w'.successes == w.successes[x := success]
    ensures v' == Pass(w'.groups, v.outcome, w'.next)
  {
    var shared, t := SharedDraw(q.estimates[x].riskGroup, draw, v, w);
    share, success := Mixed(shared, draw(t.next)), Mixed(shared, draw(t.next + 1));
    v' := t.(next := t.next + 2);
    w' := WalkOne(w, x, q.estimates[x].riskGroup, draw);
  }

  /** The next item of the pass, with its draws; None when the sum of the costs is not a safe integer. */
  method RunItem(q: Problem, ghost part: seq<Id>, x: Id, draw: nat -> Draw, v: Pass, ghost picks: map<Id, Pick>, ghost w: Walked)
    returns (after: Option<Outcome>, v': Pass, ghost p: Pick, ghost w': Walked)
    requires IsSample(q, part, picks, v.outcome) && AllDrawn(picks) && v.groups == w.groups && v.next == w.next
    requires Follows(q, part, picks, v.outcome.accepted, w.shares, w.successes)
    requires x !in part && x in q.estimates && x in q.graph
    ensures p.estimate == q.estimates[x] && WithinHard(p)
    ensures w' == WalkOne(w, x, q.estimates[x].riskGroup, draw) && v'.groups == w'.groups && v'.next == w'.next
    ensures after.Some? ==>
              && v'.outcome == after.value && IsSample(q, part + [x], picks[x := p], after.value) && AllDrawn(picks[x := p])
              && Follows(q, part + [x], picks[x := p], after.value.accepted, w'.shares, w'.successes)
    ensures after.None? ==> !AddFits(v.outcome.total, p.cost) && Drawn(p) && p.share == w'.shares[x]
  {
    var share, success;
    share, success, v', w' := DrawItem(q, part, x, draw, v, w);
    var pick := DrawPick(q.estimates[x], share);
    p := pick;
    after := PassItem(q, part, x, pick, success, v.outcome, picks);
    if after.Some? {
      FollowsOne(q, part, picks, v.outcome.accepted, w.shares, w.successes, x, p, share, success);
      OneMoreDrawn(picks, x, p);
      v' := v'.(outcome := after.value);
    }
  }

  lemma WalkAdvances(w: Walked, x: Id, group: string, draw: nat -> Draw)
    ensures w.next < WalkOne(w, x, group, draw).next
  {
  }

  /** The costs of some of the items, as drawn, with the next one's do not fit a safe integer. */
  ghost predicate Overflows(q: Problem, order: seq<Id>, draw: nat -> Draw, first: nat) {
    exists i, picks, next, o, p :: OverflowsAt(q, order, draw, first, i, picks, next, o, p)
  }

  ghost predicate OverflowsAt(
    q: Problem, order: seq<Id>, draw: nat -> Draw, first: nat, i: nat, picks: map<Id, Pick>, next: nat, o: Outcome, p: Pick) {
    && i < |order| && SampleOf(q, order[..i], picks, draw, first, next, o) && Drawn(p)
    && (forall x <- order[..i + 1] :: x in q.estimates) && p.estimate == q.estimates[order[i]]
    && (order[i] in Walk(q, order[..i + 1], draw, first).shares && p.share == Walk(q, order[..i + 1], draw, first).shares[order[i]])
    && exists d :: At(o.total, d) + At(p.cost, d) > MAX_SAFE_INTEGER
  }

  /** One pass over the ordered items; None when the sum of the costs is not a safe integer. */
  method RunSample(r: Request, order: seq<Id>, draw: nat -> Draw, first: nat) returns (o: Option<Outcome>, next: nat, ghost picks: map<Id, Pick>)
    requires IsSchedule(Graph(r.items), order)
    ensures o.Some? ==> first <= next && SampleOf(ProblemOf(r), order, picks, draw, first, next, o.value)
    ensures o.None? ==> Overflows(ProblemOf(r), order, draw, first)
    ensures BudgetGuaranteed(r) ==> o.Some?
  {
    var q := ProblemOf(r);
    GraphKeys(r.items);
    assert forall x <- order :: x in q.estimates;
    var v := Pass(map[], Outcome(r.fixed, map[], true), first);
    picks := map[];
    ghost var w := Walked(map[], first, map[], map[]);
    for i := 0 to |order|
      invariant IsSample(q, order[..i], picks, v.outcome) && AllDrawn(picks)
      invariant v.groups == w.groups && first <= v.next == w.next
      invariant (forall x <- order[..i] :: x in q.estimates) && w == Walk(q, order[..i], draw, first)
      invariant Follows(q, order[..i], picks, v.outcome.accepted, w.shares, w.successes)
    {
      NextOf(order, i);
      WalkNext(q, order[..i], order[i], draw, first);
      var after, t;
      ghost var p;
      WalkAdvances(w, order[i], q.estimates[order[i]].riskGroup, draw);
      after, t, p, w := RunItem(q, order[..i], order[i], draw, v, picks, w);
      if after.None? {
        if BudgetGuaranteed(r) {
          SampleNeverOverflows(r, order, i, picks, v.outcome, p);
        }
        OverflowFound(q, order, draw, first, i, picks, v.next, v.outcome, p);
        return None, t.next, picks;
      }
      picks := picks[order[i] := p];
      v := t;
    }
    assert order[..|order|] == order;
    o, next := Some(v.outcome), v.next;
  }

  lemma OverflowFound(
    q: Problem, order: seq<Id>, draw: nat -> Draw, first: nat, i: nat, picks: map<Id, Pick>, next: nat, o: Outcome, p: Pick)
    requires i < |order| && SampleOf(q, order[..i], picks, draw, first, next, o) && Drawn(p)
    requires (forall x <- order[..i + 1] :: x in q.estimates) && p.estimate == q.estimates[order[i]]
    requires order[i] in Walk(q, order[..i + 1], draw, first).shares && p.share == Walk(q, order[..i + 1], draw, first).shares[order[i]]
    requires !AddFits(o.total, p.cost)
    ensures Overflows(q, order, draw, first)
  {
    AddFitsMeans(o.total, p.cost);
    assert OverflowsAt(q, order, draw, first, i, picks, next, o, p);
  }

  lemma SampleNeverOverflows(r: Request, order: seq<Id>, i: nat, picks: map<Id, Pick>, o: Outcome, p: Pick)
    requires BudgetGuaranteed(r) && IsSchedule(Graph(r.items), order) && i < |order| && order[i] !in order[..i]
    requires IsSample(ProblemOf(r), order[..i], picks, o)
    requires order[i] in EstimatesOf(r.items) && p.estimate == EstimatesOf(r.items)[order[i]] && WithinHard(p)
    ensures AddFits(o.total, p.cost)
  {
    NoOverflow(r, order, i, picks, p, o.total);
  }

  lemma NoOverflow(r: Request, order: seq<Id>, i: nat, picks: map<Id, Pick>, p: Pick, total: Vector)
    requires BudgetGuaranteed(r) && IsSchedule(Graph(r.items), order) && i < |order|
    requires (forall x :: x in order[..i] <==> x in picks) && Summed(r.fixed, order[..i], picks, total)
    requires forall x <- order[..i] :: x in EstimatesOf(r.items) && picks[x].estimate == EstimatesOf(r.items)[x] && WithinHard(picks[x])
    requires order[i] in EstimatesOf(r.items) && p.estimate == EstimatesOf(r.items)[order[i]] && order[i] !in picks && WithinHard(p)
    ensures AddFits(total, p.cost)
  {
    var x, longer := order[i], picks[order[i] := p];
    assert order[..i] + [x] == order[..i + 1] && order[..i + 1][..i] == order[..i];
    forall y | y in order[..i + 1]
      ensures y in longer && y in EstimatesOf(r.items) && longer[y].estimate == EstimatesOf(r.items)[y] && WithinHard(longer[y])
    {
      assert y in order[..i] || y == x;
    }
    forall d ensures At(total, d) + At(p.cost, d) <= MAX_SAFE_INTEGER {
      SumAlongSame(order[..i], picks, longer, Cost(d));
      PartWithin(r, order, i + 1, longer, d);
    }
    AddFitsMeans(total, p.cost);
  }

  /** A sample of a guaranteed budget fits the limit. */
  lemma SampleFits(r: Request, order: seq<Id>, picks: map<Id, Pick>, o: Outcome)
    requires BudgetGuaranteed(r) && IsSchedule(Graph(r.items), order) && IsSample(ProblemOf(r), order, picks, o)
    ensures Fits(o.total, r.limit)
  {
    forall d ensures At(o.total, d) <= At(r.limit, d) {
      WholeWithin(r, order, picks, d);
    }
  }

  lemma WholeWithin(r: Request, order: seq<Id>, picks: map<Id, Pick>, d: Dimension)
    requires BudgetGuaranteed(r) && IsSchedule(Graph(r.items), order)
    requires forall x <- order :: x in picks && x in EstimatesOf(r.items) && picks[x].estimate == EstimatesOf(r.items)[x] && WithinHard(picks[x])
    ensures At(r.fixed, d) + SumAlong(order, picks, Cost(d)) <= At(r.limit, d)
  {
    assert order[..|order|] == order;
    PartWithin(r, order, |order|, picks, d);
  }

  /** A sample of a guaranteed deadline finishes in time. */
  lemma SampleInTime(r: Request, order: seq<Id>, picks: map<Id, Pick>, o: Outcome)
    requires DeadlineGuaranteed(r) && r.deadline.Some? && IsSchedule(Graph(r.items), order) && IsSample(ProblemOf(r), order, picks, o)
    ensures r.fixedDuration + Latest(o.finishes, order) <= r.deadline.value
  {
    var g, est := Graph(r.items), EstimatesOf(r.items);
    forall x | x in g ensures x in DurationsOf(picks) && DurationsOf(picks)[x] <= HardDurations(est)[x] {
      assert x in order;
      assert est[x] in est.Values;
      assert WithinHard(picks[x]);
    }
    LatestWithin(g, order, DurationsOf(picks), HardDurations(est), r.deadline.value - r.fixedDuration);
  }

  // ----- evaluate -----

  datatype Counts = Counts(budget: nat, deadline: nat, acceptance: nat, joint: nat)

  /** The joint passes lie between the bounds that the three separate counts allow. */
  predicate Frechet(c: Counts, samples: nat) {
    && c.joint <= c.budget <= samples && c.joint <= c.deadline <= samples && c.joint <= c.acceptance <= samples
    && c.budget + c.deadline + c.acceptance <= c.joint + 2 * samples
  }

  ghost predicate Guarantees(r: Request, c: Counts, samples: nat) {
    && (BudgetGuaranteed(r) ==> c.budget == samples)
    && (DeadlineGuaranteed(r) ==> c.deadline == samples)
    && (SuccessCertain(r) ==> c.acceptance == samples)
  }

  predicate WithinBudget(r: Request, o: Outcome) {
    Fits(o.total, r.limit)
  }

  predicate WithinDeadline(r: Request, order: seq<Id>, o: Outcome) {
    r.deadline.None? || ((forall x <- order :: x in o.finishes) && r.fixedDuration + Latest(o.finishes, order) <= r.deadline.value)
  }

  /** How many outcomes keep the budget, the deadline, are accepted, and are all three. */
  function Tally(r: Request, order: seq<Id>, outcomes: seq<Outcome>): Counts {
    if |outcomes| == 0 then Counts(0, 0, 0, 0)
    else OneMore(Tally(r, order, outcomes[..|outcomes| - 1]), r, order, outcomes[|outcomes| - 1])
  }

  function OneMore(c: Counts, r: Request, order: seq<Id>, o: Outcome): Counts {
    Counts(c.budget + (if WithinBudget(r, o) then 1 else 0), c.deadline + (if WithinDeadline(r, order, o) then 1 else 0),
           c.acceptance + (if o.accepted then 1 else 0),
           c.joint + (if WithinBudget(r, o) && WithinDeadline(r, order, o) && o.accepted then 1 else 0))
  }

  /** The samples of a run of the simulation; sample k uses the draws from marks[k] on and before marks[k + 1]. */
  datatype Simulation = Simulation(order: seq<Id>, outcomes: seq<Outcome>, marks: seq<nat>)

  ghost predicate Simulates(q: Problem, draw: nat -> Draw, sim: Simulation) {
    Follow(Fitting(q, sim.order, draw), sim.outcomes, sim.marks)
  }

  ghost function Fitting(q: Problem, order: seq<Id>, draw: nat -> Draw): (nat, nat, Outcome) -> bool {
    (first: nat, next: nat, o: Outcome) => IsOutcome(q, order, draw, first, next, o)
  }

  /** Each outcome fits between its mark and the next. */
  ghost predicate Follow(fits: (nat, nat, Outcome) -> bool, outcomes: seq<Outcome>, marks: seq<nat>) {
    && |marks| == |outcomes| + 1 && marks[0] == 0
    && forall k :: 0 <= k < |outcomes| ==> marks[k] <= marks[k + 1] && fits(marks[k], marks[k + 1], outcomes[k])
  }

  lemma FollowsMore(fits: (nat, nat, Outcome) -> bool, outcomes: seq<Outcome>, marks: seq<nat>, o: Outcome, next: nat)
    requires Follow(fits, outcomes, marks) && marks[|outcomes|] <= next && fits(marks[|outcomes|], next, o)
    ensures Follow(fits, outcomes + [o], marks + [next])
  {
  }

  lemma FitsBetween(q: Problem, order: seq<Id>, draw: nat -> Draw, picks: map<Id, Pick>, first: nat, next: nat, o: Outcome)
    requires SampleOf(q, order, picks, draw, first, next, o)
    ensures Fitting(q, order, draw)(first, next, o)
  {
    assert IsOutcome(q, order, draw, first, next, o);
  }

  lemma TallyMore(r: Request, order: seq<Id>, outcomes: seq<Outcome>, o: Outcome)
    ensures Tally(r, order, outcomes + [o]) == OneMore(Tally(r, order, outcomes), r, order, o)
  {
    assert (outcomes + [o])[..|outcomes|] == outcomes;
  }

  /** What is guaranteed of a request holds of each of its samples. */
  lemma SampleKeepsGuarantees(r: Request, order: seq<Id>, picks: map<Id, Pick>, o: Outcome)
    requires IsSchedule(Graph(r.items), order) && IsSample(ProblemOf(r), order, picks, o)
    ensures BudgetGuaranteed(r) ==> WithinBudget(r, o)
    ensures DeadlineGuaranteed(r) ==> WithinDeadline(r, order, o)
    ensures SuccessCertain(r) ==> o.accepted
  {
    if BudgetGuaranteed(r) {
      SampleFits(r, order, picks, o);
    }
    if DeadlineGuaranteed(r) && r.deadline.Some? {
      SampleInTime(r, order, picks, o);
    }
  }

  lemma TimedAlong(r: Request, order: seq<Id>, picks: map<Id, Pick>, o: Outcome)
    requires IsSchedule(Graph(r.items), order) && IsSample(ProblemOf(r), order, picks, o)
    ensures forall x <- order :: x in o.finishes
  {
  }

  method Simulate(r: Request, order: seq<Id>, draw: nat -> Draw) returns (counts: Option<Counts>, ghost sim: Simulation)
    requires IsSchedule(Graph(r.items), order) && r.samples >= 0
    ensures counts.Some? ==> Frechet(counts.value, r.samples) && Guarantees(r, counts.value, r.samples)
    ensures counts.Some? ==>
              && Simulates(ProblemOf(r), draw, sim) && sim.order == order && |sim.outcomes| == r.samples
              && counts.value == Tally(r, order, sim.outcomes)
    ensures counts.None? ==> exists first: nat :: Overflows(ProblemOf(r), order, draw, first)
    ensures BudgetGuaranteed(r) ==> counts.Some?
  {
    var c, first := Counts(0, 0, 0, 0), 0;
    sim := Simulation(order, [], [0]);
    ghost var fits := Fitting(ProblemOf(r), order, draw);
    for k := 0 to r.samples
      invariant Frechet(c, k) && Guarantees(r, c, k)
      invariant Follow(fits, sim.outcomes, sim.marks) && sim.order == order && |sim.outcomes| == k && sim.marks[k] == first
      invariant c == Tally(r, order, sim.outcomes)
    {
      ghost var picks;
      var o, next;
      o, next, picks := RunSample(r, order, draw, first);
      if o.None? {
        return None, sim;
      }
      SampleKeepsGuarantees(r, order, picks, o.value);
      TimedAlong(r, order, picks, o.value);
      FitsBetween(ProblemOf(r), order, draw, picks, first, next, o.value);
      FollowsMore(fits, sim.outcomes, sim.marks, o.value, next);
      TallyMore(r, order, sim.outcomes, o.value);
      sim := Simulation(order, sim.outcomes + [o.value], sim.marks + [next]);
      c := OneMore(c, r, order, o.value);
      first := next;
    }
    counts := Some(c);
  }

  // ----- What the counts count -----

  /** The outcomes that pass a test, one more at a time. */
  lemma CountOneMore(outcomes: seq<Outcome>, o: Outcome, passes: Outcome -> bool)
    ensures |set k: nat | k < |outcomes| + 1 && passes((outcomes + [o])[k])|
            == |set k: nat | k < |outcomes| && passes(outcomes[k])| + if passes(o) then 1 else 0
  {
    var before := set k: nat | k < |outcomes| && passes(outcomes[k]);
    var after := set k: nat | k < |outcomes| + 1 && passes((outcomes + [o])[k]);
    assert after == if passes(o) then before + {|outcomes|} else before;
  }

  lemma {:induction false} CountedAlong(
    r: Request, order: seq<Id>, outcomes: seq<Outcome>, count: Counts -> nat, passes: Outcome -> bool)
    requires count(Counts(0, 0, 0, 0)) == 0
    requires forall c, o :: count(OneMore(c, r, order, o)) == count(c) + if passes(o) then 1 else 0
    ensures count(Tally(r, order, outcomes)) == |set k: nat | k < |outcomes| && passes(outcomes[k])|
    decreases |outcomes|
  {
    if |outcomes| == 0 {
      assert (set k: nat | k < |outcomes| && passes(outcomes[k])) == {};
    } else {
      var init, o := outcomes[..|outcomes| - 1], outcomes[|outcomes| - 1];
      assert outcomes == init + [o];
      CountedAlong(r, order, init, count, passes);
      CountOneMore(init, o, passes);
    }
  }

  lemma LatestInTime(finishes: map<Id, int>, order: seq<Id>, start: int, deadline: int)
    requires forall x :: x in order <==> x in finishes
    ensures start + Latest(finishes, order) <= deadline <==>
              start <= deadline && forall x <- finishes.Keys :: start + finishes[x] <= deadline
  {
    LatestAtMost(finishes, order, deadline - start);
  }

  lemma LatestAtMost(finishes: map<Id, int>, order: seq<Id>, bound: int)
    requires forall x <- order :: x in finishes
    ensures Latest(finishes, order) <= bound <==> 0 <= bound && forall x <- order :: finishes[x] <= bound
  {
  }

  ghost predicate AllTimed(order: seq<Id>, outcomes: seq<Outcome>) {
    forall k :: 0 <= k < |outcomes| ==> Timed(order, outcomes[k])
  }

  ghost predicate Timed(order: seq<Id>, o: Outcome) {
    forall x :: x in order <==> x in o.finishes
  }

  lemma OutcomesAreTimed(q: Problem, draw: nat -> Draw, sim: Simulation)
    requires Simulates(q, draw, sim)
    ensures AllTimed(sim.order, sim.outcomes)
  {
    forall k | 0 <= k < |sim.outcomes| ensures Timed(sim.order, sim.outcomes[k]) {
      assert Fitting(q, sim.order, draw)(sim.marks[k], sim.marks[k + 1], sim.outcomes[k]);
      OutcomeIsTimed(q, sim.order, draw, sim.marks[k], sim.marks[k + 1], sim.outcomes[k]);
    }
  }

  lemma OutcomeIsTimed(q: Problem, order: seq<Id>, draw: nat -> Draw, first: nat, next: nat, o: Outcome)
    requires IsOutcome(q, order, draw, first, next, o)
    ensures Timed(order, o)
  {
  }

  lemma BudgetCounted(r: Request, order: seq<Id>, outcomes: seq<Outcome>)
    ensures var passing := set k: nat | k < |outcomes| && forall d :: At(outcomes[k].total, d) <= At(r.limit, d);
            Tally(r, order, outcomes).budget == |passing|
  {
    var passes := (o: Outcome) => WithinBudget(r, o);
    CountedAlong(r, order, outcomes, (c: Counts) => c.budget, passes);
    assert (set k: nat | k < |outcomes| && passes(outcomes[k]))
        == (set k: nat | k < |outcomes| && forall d :: At(outcomes[k].total, d) <= At(r.limit, d));
  }

  lemma AcceptanceCounted(r: Request, order: seq<Id>, outcomes: seq<Outcome>)
    ensures var passing := set k: nat | k < |outcomes| && outcomes[k].accepted;
            Tally(r, order, outcomes).acceptance == |passing|
  {
    var passes := (o: Outcome) => o.accepted;
    CountedAlong(r, order, outcomes, (c: Counts) => c.acceptance, passes);
    assert (set k: nat | k < |outcomes| && passes(outcomes[k]))
        == (set k: nat | k < |outcomes| && outcomes[k].accepted);
  }

  /** With no deadline everything is in time. */
  ghost predicate InTime(r: Request, o: Outcome) {
    r.deadline.None? || (r.fixedDuration <= r.deadline.value && forall x <- o.finishes.Keys :: r.fixedDuration + o.finishes[x] <= r.deadline.value)
  }

  lemma InTimeIsWithin(r: Request, order: seq<Id>, o: Outcome)
    requires Timed(order, o)
    ensures InTime(r, o) <==> WithinDeadline(r, order, o)
  {
    if r.deadline.Some? {
      LatestInTime(o.finishes, order, r.fixedDuration, r.deadline.value);
    }
  }

  lemma DeadlineCounted(r: Request, order: seq<Id>, outcomes: seq<Outcome>)
    requires AllTimed(order, outcomes)
    ensures var passing := set k: nat | k < |outcomes| && InTime(r, outcomes[k]);
            Tally(r, order, outcomes).deadline == |passing|
  {
    var passes := (o: Outcome) => WithinDeadline(r, order, o);
    CountedAlong(r, order, outcomes, (c: Counts) => c.deadline, passes);
    forall k: nat | k < |outcomes| ensures InTime(r, outcomes[k]) <==> WithinDeadline(r, order, outcomes[k]) {
      InTimeIsWithin(r, order, outcomes[k]);
    }
    assert (set k: nat | k < |outcomes| && passes(outcomes[k]))
        == (set k: nat | k < |outcomes| && InTime(r, outcomes[k]));
  }

  lemma JointCounted(r: Request, order: seq<Id>, outcomes: seq<Outcome>)
    requires AllTimed(order, outcomes)
    ensures var passing := set k: nat |
              && k < |outcomes| && (forall d :: At(outcomes[k].total, d) <= At(r.limit, d))
              && InTime(r, outcomes[k]) && outcomes[k].accepted;
            Tally(r, order, outcomes).joint == |passing|
  {
    var passes := (o: Outcome) => WithinBudget(r, o) && WithinDeadline(r, order, o) && o.accepted;
    CountedAlong(r, order, outcomes, (c: Counts) => c.joint, passes);
    forall k: nat | k < |outcomes| ensures InTime(r, outcomes[k]) <==> WithinDeadline(r, order, outcomes[k]) {
      InTimeIsWithin(r, order, outcomes[k]);
    }
    assert (set k: nat | k < |outcomes| && passes(outcomes[k]))
        == (set k: nat |
              && k < |outcomes| && (forall d :: At(outcomes[k].total, d) <= At(r.limit, d))
              && InTime(r, outcomes[k]) && outcomes[k].accepted);
  }

  ghost predicate UniqueIds(items: seq<WorkItem>) {
    forall i, j :: 0 <= i < j < |items| ==> items[i].id != items[j].id
  }

  function Portion(part: nat, whole: nat): real
    requires whole > 0
  {
    part as real / whole as real
  }

  lemma TimelyMeans(r: Request, outcomes: seq<Outcome>)
    ensures (set k: nat | k < |outcomes| && InTime(r, outcomes[k]))
         == (set k: nat |
               && k < |outcomes|
               && (r.deadline.None? ||
                   (r.fixedDuration <= r.deadline.value
                    && forall x <- outcomes[k].finishes.Keys :: r.fixedDuration + outcomes[k].finishes[x] <= r.deadline.value)))
  {
    assert forall k: nat | k < |outcomes| ::
        InTime(r, outcomes[k]) <==>
          (r.deadline.None? ||
           (r.fixedDuration <= r.deadline.value
            && forall x <- outcomes[k].finishes.Keys :: r.fixedDuration + outcomes[k].finishes[x] <= r.deadline.value));
  }

  lemma JointIsShared(r: Request, order: seq<Id>, outcomes: seq<Outcome>)
    requires AllTimed(order, outcomes)
    ensures var fitting := set k: nat | k < |outcomes| && forall d :: At(outcomes[k].total, d) <= At(r.limit, d);
            var timely := set k: nat | k < |outcomes| && InTime(r, outcomes[k]);
            var lucky := set k: nat | k < |outcomes| && outcomes[k].accepted;
            Tally(r, order, outcomes).joint == |fitting * timely * lucky|
  {
    JointCounted(r, order, outcomes);
    var fitting := set k: nat | k < |outcomes| && forall d :: At(outcomes[k].total, d) <= At(r.limit, d);
    var timely := set k: nat | k < |outcomes| && InTime(r, outcomes[k]);
    var lucky := set k: nat | k < |outcomes| && outcomes[k].accepted;
    assert fitting * timely * lucky == set k: nat |
      && k < |outcomes| && (forall d :: At(outcomes[k].total, d) <= At(r.limit, d))
      && InTime(r, outcomes[k]) && outcomes[k].accepted;
  }

  /** The four counts, by what the outcomes say. */
  lemma TallyMeans(r: Request, order: seq<Id>, outcomes: seq<Outcome>)
    requires AllTimed(order, outcomes)
    ensures var fitting := set k: nat | k < |outcomes| && forall d :: At(outcomes[k].total, d) <= At(r.limit, d);
            var timely := set k: nat |
              && k < |outcomes|
              && (r.deadline.None? ||
                  (r.fixedDuration <= r.deadline.value
                   && forall x <- outcomes[k].finishes.Keys :: r.fixedDuration + outcomes[k].finishes[x] <= r.deadline.value));
            var lucky := set k: nat | k < |outcomes| && outcomes[k].accepted;
            Tally(r, order, outcomes) == Counts(|fitting|, |timely|, |lucky|, |fitting * timely * lucky|)
  {
    TimelyMeans(r, outcomes);
    BudgetCounted(r, order, outcomes);
    DeadlineCounted(r, order, outcomes);
    AcceptanceCounted(r, order, outcomes);
    JointIsShared(r, order, outcomes);
  }

  // ----- What no sample can repair -----

  lemma SumsGrow(part: seq<Id>, picks: map<Id, Pick>, d: Dimension)
    requires forall x <- part :: x in picks
    ensures SumAlong(part, picks, Cost(d)) >= 0
  {
  }

  lemma OutcomeCostsFixed(q: Problem, order: seq<Id>, draw: nat -> Draw, first: nat, next: nat, o: Outcome, d: Dimension)
    requires IsOutcome(q, order, draw, first, next, o)
    ensures At(q.fixed, d) <= At(o.total, d)
  {
    var picks :| SampleOf(q, order, picks, draw, first, next, o);
    SumsGrow(order, picks, d);
  }

  lemma FixedCostsRemain(r: Request, draw: nat -> Draw, sim: Simulation, d: Dimension)
    requires Simulates(ProblemOf(r), draw, sim) && At(r.fixed, d) > At(r.limit, d)
    ensures forall k: nat :: k < |sim.outcomes| ==> At(sim.outcomes[k].total, d) > At(r.limit, d)
  {
    var q := ProblemOf(r);
    forall k: nat | k < |sim.outcomes| ensures At(sim.outcomes[k].total, d) > At(r.limit, d) {
      assert Fitting(q, sim.order, draw)(sim.marks[k], sim.marks[k + 1], sim.outcomes[k]);
      OutcomeCostsFixed(q, sim.order, draw, sim.marks[k], sim.marks[k + 1], sim.outcomes[k], d);
    }
  }

  /** Fixed costs over the limit, or a fixed duration over the deadline, leave no sample to pass. */
  lemma NothingPasses(r: Request, draw: nat -> Draw, sim: Simulation)
    requires Simulates(ProblemOf(r), draw, sim)
    ensures (exists d :: At(r.fixed, d) > At(r.limit, d)) ==>
              Tally(r, sim.order, sim.outcomes).budget == 0 == Tally(r, sim.order, sim.outcomes).joint
    ensures r.deadline.Some? && r.fixedDuration > r.deadline.value ==>
              Tally(r, sim.order, sim.outcomes).deadline == 0 == Tally(r, sim.order, sim.outcomes).joint
  {
    OutcomesAreTimed(ProblemOf(r), draw, sim);
    JointIsLeast(r, sim.order, sim.outcomes);
    if d :| At(r.fixed, d) > At(r.limit, d) {
      FixedCostsRemain(r, draw, sim, d);
      BudgetCounted(r, sim.order, sim.outcomes);
      assert (set k: nat | k < |sim.outcomes| && forall d :: At(sim.outcomes[k].total, d) <= At(r.limit, d)) == {};
    }
    if r.deadline.Some? && r.fixedDuration > r.deadline.value {
      DeadlineCounted(r, sim.order, sim.outcomes);
      assert (set k: nat | k < |sim.outcomes| && InTime(r, sim.outcomes[k])) == {};
    }
  }

  lemma JointIsLeast(r: Request, order: seq<Id>, outcomes: seq<Outcome>)
    ensures Tally(r, order, outcomes).joint <= Tally(r, order, outcomes).budget
    ensures Tally(r, order, outcomes).joint <= Tally(r, order, outcomes).deadline
  {
  }

  /** The graph has the items by their identifiers. */
  lemma {:induction false} GraphMeans(items: seq<WorkItem>, i: nat)
    requires i < |items| && UniqueIds(items)
    ensures items[i].id in Graph(items) && Graph(items)[items[i].id] == items[i].dependsOn
    ensures items[i].id in EstimatesOf(items) && EstimatesOf(items)[items[i].id] == items[i].estimate
    decreases |items|
  {
    if i < |items| - 1 {
      GraphMeans(items[..|items| - 1], i);
    }
  }

  lemma IdsMean(items: seq<WorkItem>, x: Id)
    ensures x in Ids(items) <==> exists i :: 0 <= i < |items| && items[i].id == x
  {
    if x in Ids(items) {
      var i :| 0 <= i < |items| && Ids(items)[i] == x;
      assert items[i].id == x;
    }
    if i :| 0 <= i < |items| && items[i].id == x {
      assert Ids(items)[i] == x;
    }
  }

  lemma GraphIds(items: seq<WorkItem>, x: Id)
    ensures x in Graph(items) <==> exists i :: 0 <= i < |items| && items[i].id == x
  {
    GraphKeys(items);
    IdsMean(items, x);
  }

  ghost predicate HasMissing(items: seq<WorkItem>) {
    exists i, d :: 0 <= i < |items| && d in items[i].dependsOn && forall j :: 0 <= j < |items| ==> items[j].id != d
  }

  lemma ClosedMeans(items: seq<WorkItem>)
    requires UniqueIds(items)
    ensures Closed(Graph(items)) <==> !HasMissing(items)
  {
    var g := Graph(items);
    forall d ensures d in g <==> exists j :: 0 <= j < |items| && items[j].id == d {
      GraphIds(items, d);
    }
    forall i | 0 <= i < |items| ensures items[i].id in g && g[items[i].id] == items[i].dependsOn {
      GraphMeans(items, i);
    }
  }

  ghost predicate WellFormedRequest(r: Request) {
    r.samples >= 100 && 0.0 < r.target <= 1.0 && UniqueIds(r.items) && Closed(Graph(r.items))
  }

  method HasUniqueIds(items: seq<WorkItem>) returns (unique: bool)
    ensures unique <==> forall i, j :: 0 <= i < j < |items| ==> items[i].id != items[j].id
  {
    var seen: set<Id> := {};
    unique := true;
    for i := 0 to |items|
      invariant forall x :: x in seen <==> exists j :: 0 <= j < i && items[j].id == x
      invariant unique <==> forall j, k :: 0 <= j < k < i ==> items[j].id != items[k].id
    {
      if items[i].id in seen {
        unique := false;
      }
      seen := seen + {items[i].id};
    }
  }

  /** What a calibrated decision says about its probabilities. */
  ghost predicate Reported(r: Request, d: Decision) {
    && d.probabilities.Some?
    && var p := d.probabilities.value;
    && 0.0 <= p.joint && p.joint <= p.budget <= 1.0 && p.joint <= p.deadline <= 1.0 && p.joint <= p.acceptance <= 1.0
    && p.budget + p.deadline + p.acceptance <= p.joint + 2.0
    && (BudgetGuaranteed(r) ==> p.budget == 1.0)
    && (DeadlineGuaranteed(r) ==> p.deadline == 1.0)
    && (SuccessCertain(r) ==> p.acceptance == 1.0)
    && (d.feasible <==> p.joint >= r.target)
    && (BudgetGuaranteed(r) && DeadlineGuaranteed(r) && SuccessCertain(r) ==> d.feasible)
  }

  /** The probabilities are the counted parts of the samples. */
  ghost predicate Portions(r: Request, c: Counts, d: Decision)
    requires r.samples > 0
  {
    d.probabilities == Some(Probabilities(Portion(c.joint, r.samples), Portion(c.budget, r.samples),
                                          Portion(c.deadline, r.samples), Portion(c.acceptance, r.samples)))
  }

  method Decide(r: Request, c: Counts) returns (d: Decision)
    requires r.samples > 0 && r.target <= 1.0 && Frechet(c, r.samples) && Guarantees(r, c, r.samples)
    ensures Reported(r, d) && d.calibrated && !d.requiresHumanApproval && Portions(r, c, d)
  {
    var p := Probabilities(Portion(c.joint, r.samples), Portion(c.budget, r.samples),
                           Portion(c.deadline, r.samples), Portion(c.acceptance, r.samples));
    PortionsBounded(c, r.samples);
    d := Decision(true, p.joint >= r.target, false, Some(p));
  }

  /** The probabilities, counted: outcomes within the limit, in time, accepted, and all three. */
  ghost predicate ByCounting(r: Request, outcomes: seq<Outcome>, d: Decision) {
    && d.probabilities.Some? && r.samples > 0
    && var p, n := d.probabilities.value, r.samples as real;
    var fitting := set k: nat | k < |outcomes| && forall d :: At(outcomes[k].total, d) <= At(r.limit, d);
    var timely := set k: nat |
      && k < |outcomes|
      && (r.deadline.None? ||
          (r.fixedDuration <= r.deadline.value
           && forall x <- outcomes[k].finishes.Keys :: r.fixedDuration + outcomes[k].finishes[x] <= r.deadline.value));
    var lucky := set k: nat | k < |outcomes| && outcomes[k].accepted;
    && p.budget == |fitting| as real / n && p.deadline == |timely| as real / n && p.acceptance == |lucky| as real / n
    && p.joint == |fitting * timely * lucky| as real / n
    && (d.feasible <==> |fitting * timely * lucky| as real / n >= r.target)
  }

  /** Fixed costs over the limit, or a fixed duration over the deadline, leave no chance. */
  ghost predicate NoneRepaired(r: Request, d: Decision) {
    && d.probabilities.Some?
    && ((exists d :: At(r.fixed, d) > At(r.limit, d)) ==> d.probabilities.value.budget == 0.0 && !d.feasible)
    && (r.deadline.Some? && r.fixedDuration > r.deadline.value ==> d.probabilities.value.deadline == 0.0 && !d.feasible)
  }

  lemma DecidedByCounting(r: Request, draw: nat -> Draw, sim: Simulation, d: Decision)
    requires Simulates(ProblemOf(r), draw, sim) && r.samples > 0
    requires Portions(r, Tally(r, sim.order, sim.outcomes), d) && Reported(r, d)
    ensures ByCounting(r, sim.outcomes, d)
  {
    OutcomesAreTimed(ProblemOf(r), draw, sim);
    TallyMeans(r, sim.order, sim.outcomes);
  }

  lemma NoPart(n: nat)
    requires n > 0
    ensures Portion(0, n) == 0.0
  {
  }

  lemma DecidedWithoutRepair(r: Request, draw: nat -> Draw, sim: Simulation, d: Decision)
    requires Simulates(ProblemOf(r), draw, sim) && r.samples > 0 && r.target > 0.0
    requires Portions(r, Tally(r, sim.order, sim.outcomes), d) && Reported(r, d)
    ensures NoneRepaired(r, d)
  {
    NothingPasses(r, draw, sim);
    NoPart(r.samples);
  }

  /** The refusals that need no simulation, the first that applies. */
  ghost predicate RefusedFor(r: Request, error: Option<AdmissionError>) {
    && (error == Some(TooFewSamples) <==> r.samples < 100)
    && (error == Some(TargetOutOfRange) <==> r.samples >= 100 && (r.target <= 0.0 || r.target > 1.0))
    && (error == Some(DuplicateIds) <==>
          && r.samples >= 100 && 0.0 < r.target <= 1.0
          && exists i, j :: 0 <= i < j < |r.items| && r.items[i].id == r.items[j].id)
    && (error == Some(MissingDependency) <==>
          && r.samples >= 100 && 0.0 < r.target <= 1.0 && (forall i, j :: 0 <= i < j < |r.items| ==> r.items[i].id != r.items[j].id)
          && exists i, d :: 0 <= i < |r.items| && d in r.items[i].dependsOn && forall j :: 0 <= j < |r.items| ==> r.items[j].id != d)
  }

  method Check(r: Request) returns (error: Option<AdmissionError>)
    ensures RefusedFor(r, error) && error !in {Some(DependencyCycle), Some(TotalOverflow)}
    ensures error.None? <==> WellFormedRequest(r)
  {
    if r.samples < 100 {
      return Some(TooFewSamples);
    }
    if !(0.0 < r.target <= 1.0) {
      return Some(TargetOutOfRange);
    }
    var unique := HasUniqueIds(r.items);
    if !unique {
      return Some(DuplicateIds);
    }
    ClosedMeans(r.items);
    if !Closed(Graph(r.items)) {
      return Some(MissingDependency);
    }
    error := None;
  }

  lemma RefusedLater(r: Request, error: AdmissionError)
    requires WellFormedRequest(r) && error in {DependencyCycle, TotalOverflow}
    ensures RefusedFor(r, Some(error)) && RefusedFor(r, None)
  {
    ClosedMeans(r.items);
  }

  method DecideBySimulation(r: Request, order: seq<Id>, draw: nat -> Draw) returns (d: Option<Decision>, ghost sim: Simulation)
    requires IsSchedule(Graph(r.items), order) && r.samples > 0 && 0.0 < r.target <= 1.0
    ensures d.None? ==> exists first: nat :: Overflows(ProblemOf(r), order, draw, first)
    ensures BudgetGuaranteed(r) ==> d.Some?
    ensures d.Some? ==>
              && d.value.calibrated && !d.value.requiresHumanApproval && Reported(r, d.value)
              && sim.order == order && Simulates(ProblemOf(r), draw, sim) && |sim.outcomes| == r.samples
              && ByCounting(r, sim.outcomes, d.value) && NoneRepaired(r, d.value)
  {
    var counts;
    counts, sim := Simulate(r, order, draw);
    if counts.None? {
      return None, sim;
    }
    var decision := Decide(r, counts.value);
    DecidedByCounting(r, draw, sim, decision);
    DecidedWithoutRepair(r, draw, sim, decision);
    d := Some(decision);
  }

  /** The decision on a request that is well formed: refused for a cycle or an overflow, left to a human, or simulated. */
  method EvaluateWellFormed(r: Request, draw: nat -> Draw) returns (res: Result<Decision, AdmissionError>, ghost sim: Simulation)
    requires WellFormedRequest(r)
    ensures res.Failure? ==> res.error in {DependencyCycle, TotalOverflow}
    ensures res == Failure(DependencyCycle) <==> !Graphs.Acyclic(Edges(Graph(r.items)))
    ensures BudgetGuaranteed(r) ==> res != Failure(TotalOverflow)
    ensures res == Failure(TotalOverflow) ==>
              exists order, first: nat :: IsSchedule(Graph(r.items), order) && Overflows(ProblemOf(r), order, draw, first)
    ensures res.Success? ==> if res.value.calibrated then Reported(r, res.value) else !res.value.feasible && res.value.requiresHumanApproval
    ensures res.Success? && res.value.calibrated ==>
              && IsSchedule(Graph(r.items), sim.order) && Simulates(ProblemOf(r), draw, sim) && |sim.outcomes| == r.samples > 0
              && ByCounting(r, sim.outcomes, res.value) && NoneRepaired(r, res.value)
    ensures res.Success? ==>
              (res.value.calibrated <==> forall i :: 0 <= i < |r.items| ==> r.items[i].estimate.confidence != Uncalibrated)
  {
    sim := Simulation([], [], [0]);
    GraphKeys(r.items);
    var order := Order(Ids(r.items), Graph(r.items));
    if order.None? {
      return Failure(DependencyCycle), sim;
    }
    if exists i :: 0 <= i < |r.items| && r.items[i].estimate.confidence == Uncalibrated {
      return Success(Decision(false, false, true, None)), sim;
    }
    var d;
    d, sim := DecideBySimulation(r, order.value, draw);
    res := if d.None? then Failure(TotalOverflow) else Success(d.value);
  }

  /** The decision on a request: what is refused, what needs a human, and what the simulation found. */
  method Evaluate(r: Request, draw: nat -> Draw) returns (res: Result<Decision, AdmissionError>, ghost sim: Simulation)
    ensures RefusedFor(r, if res.Failure? then Some(res.error) else None)
    ensures WellFormedRequest(r) ==> (res == Failure(DependencyCycle) <==> !Graphs.Acyclic(Edges(Graph(r.items))))
    ensures BudgetGuaranteed(r) ==> res != Failure(TotalOverflow)
    ensures res == Failure(TotalOverflow) ==>
              exists order, first: nat :: IsSchedule(Graph(r.items), order) && Overflows(ProblemOf(r), order, draw, first)
    ensures res.Success? ==> if res.value.calibrated then Reported(r, res.value) else !res.value.feasible && res.value.requiresHumanApproval
    ensures res.Success? && res.value.calibrated ==>
              && IsSchedule(Graph(r.items), sim.order) && Simulates(ProblemOf(r), draw, sim) && |sim.outcomes| == r.samples > 0
              && ByCounting(r, sim.outcomes, res.value) && NoneRepaired(r, res.value)
    ensures res.Success? ==>
              (res.value.calibrated <==> forall i :: 0 <= i < |r.items| ==> r.items[i].estimate.confidence != Uncalibrated)
  {
    var refused := Check(r);
    if refused.Some? {
      return Failure(refused.value), Simulation([], [], [0]);
    }
    RefusedLater(r, DependencyCycle);
    RefusedLater(r, TotalOverflow);
    res, sim := EvaluateWellFormed(r, draw);
  }

  lemma PortionMonotone(a: nat, b: nat, n: nat)
    requires a <= b && n > 0
    ensures 0.0 <= Portion(a, n) <= Portion(b, n)
  {
  }

  lemma PortionWhole(n: nat)
    requires n > 0
    ensures Portion(n, n) == 1.0
  {
  }

  lemma PortionSum(a: nat, b: nat, n: nat)
    requires n > 0
    ensures Portion(a + b, n) == Portion(a, n) + Portion(b, n)
  {
  }

  lemma PortionsBounded(c: Counts, n: nat)
    requires Frechet(c, n) && n > 0
    ensures 0.0 <= Portion(c.joint, n)
    ensures Portion(c.joint, n) <= Portion(c.budget, n) <= 1.0
    ensures Portion(c.joint, n) <= Portion(c.deadline, n) <= 1.0
    ensures Portion(c.joint, n) <= Portion(c.acceptance, n) <= 1.0
    ensures Portion(c.budget, n) + Portion(c.deadline, n) + Portion(c.acceptance, n) <= Portion(c.joint, n) + 2.0
    ensures Portion(n, n) == 1.0
  {
    PortionWhole(n);
    PortionMonotone(c.joint, c.budget, n);
    PortionMonotone(c.joint, c.deadline, n);
    PortionMonotone(c.joint, c.acceptance, n);
    PortionMonotone(c.budget, n, n);
    PortionMonotone(c.deadline, n, n);
    PortionMonotone(c.acceptance, n, n);
    JointPortion(c, n);
  }

  lemma JointPortion(c: Counts, n: nat)
    requires Frechet(c, n) && n > 0
    ensures Portion(c.budget, n) + Portion(c.deadline, n) + Portion(c.acceptance, n) <= Portion(c.joint, n) + 2.0
  {
    PortionWhole(n);
    PortionSum(c.budget, c.deadline, n);
    PortionSum(c.budget + c.deadline, c.acceptance, n);
    PortionSum(n, n, n);
    PortionSum(c.joint, n + n, n);
    PortionMonotone(c.budget + c.deadline + c.acceptance, c.joint + (n + n), n);
  }
}
