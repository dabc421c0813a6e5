/** Finish times along a schedule, and what they are: the lengths of the longest dependency chains. */
module Scheduling {
  import opened Wrappers
  import opened DependencyOrder
  import opened Totals

  type Durations = map<Id, nat>

  // ----- The source's recurrence -----

  /** The latest finish among the dependencies; one that is not known counts as zero. */
  function StartOf(finishes: map<Id, int>, deps: seq<Id>): int {
    if |deps| == 0 then 0
    else
      var d := deps[|deps| - 1];
      Max(StartOf(finishes, deps[..|deps| - 1]), if d in finishes then finishes[d] else 0)
  }

  function Finishes(g: Dependencies, order: seq<Id>, dur: Durations): (f: map<Id, int>)
    requires (forall x <- order :: x in g) && (forall x <- order :: x in dur)
    ensures forall x :: x in f <==> x in order
  {
    if |order| == 0 then map[]
    else
      var x := order[|order| - 1];
      var before := Finishes(g, order[..|order| - 1], dur);
      assert forall y :: y in order <==> y in order[..|order| - 1] || y == x;
      before[x := StartOf(before, g[x]) + dur[x]]
  }

  /** The finish of everything: zero when there is nothing to do. */
  function Latest(finishes: map<Id, int>, order: seq<Id>): int
    requires forall x <- order :: x in finishes
  {
    if |order| == 0 then 0 else Max(Latest(finishes, order[..|order| - 1]), finishes[order[|order| - 1]])
  }

  // ----- Chains -----

  /** Items each of which the next one depends on. */
  ghost predicate IsChain(g: Dependencies, c: seq<Id>) {
    && |c| > 0 && (forall x <- c :: x in g)
    && forall k :: 0 <= k < |c| - 1 ==> c[k] in g[c[k + 1]]
  }

  ghost predicate ChainTo(g: Dependencies, c: seq<Id>, x: Id) {
    IsChain(g, c) && c[|c| - 1] == x
  }

  function Length(dur: Durations, c: seq<Id>): int
    requires forall x <- c :: x in dur
  {
    if |c| == 0 then 0 else Length(dur, c[..|c| - 1]) + dur[c[|c| - 1]]
  }

  /** t is the length of a longest chain that ends with x. */
  ghost predicate IsCritical(g: Dependencies, dur: Durations, x: Id, t: int)
    requires g.Keys <= dur.Keys
  {
    && (exists c :: ChainTo(g, c, x) && Length(dur, c) == t)
    && (forall c :: ChainTo(g, c, x) ==> Length(dur, c) <= t)
  }

  lemma StartBounds(finishes: map<Id, int>, deps: seq<Id>)
    ensures StartOf(finishes, deps) >= 0
    ensures forall d <- deps :: d in finishes ==> finishes[d] <= StartOf(finishes, deps)
    ensures StartOf(finishes, deps) == 0 || exists d :: d in deps && d in finishes && finishes[d] == StartOf(finishes, deps)
  {
  }

  lemma ChainExtends(g: Dependencies, dur: Durations, c: seq<Id>, d: Id, x: Id)
    requires ChainTo(g, c, d) && x in g && d in g[x] && g.Keys <= dur.Keys
    ensures ChainTo(g, c + [x], x) && Length(dur, c + [x]) == Length(dur, c) + dur[x]
  {
  }

  lemma ChainSplits(g: Dependencies, dur: Durations, c: seq<Id>, x: Id)
    requires ChainTo(g, c, x) && |c| > 1 && g.Keys <= dur.Keys
    ensures var init := c[..|c| - 1];
            init[|init| - 1] in g[x] && ChainTo(g, init, init[|init| - 1]) && Length(dur, c) == Length(dur, init) + dur[x]
  {
  }

  /** The recurrence for one item, given the critical times of its dependencies. */
  lemma NextIsCritical(g: Dependencies, dur: Durations, finishes: map<Id, int>, x: Id)
    requires x in g && g.Keys <= dur.Keys
    requires forall d <- g[x] :: d in finishes && IsCritical(g, dur, d, finishes[d])
    ensures IsCritical(g, dur, x, StartOf(finishes, g[x]) + dur[x])
  {
    var start := StartOf(finishes, g[x]);
    StartBounds(finishes, g[x]);
    forall c | ChainTo(g, c, x) ensures Length(dur, c) <= start + dur[x] {
      if |c| > 1 {
        ChainSplits(g, dur, c, x);
        var d := c[|c| - 2];
        assert IsCritical(g, dur, d, finishes[d]) && ChainTo(g, c[..|c| - 1], d);
      } else {
        assert Length(dur, c[..0]) == 0;
      }
    }
    if start == 0 {
      assert ChainTo(g, [x], x) && Length(dur, [x][..0]) == 0;
      assert Length(dur, [x]) == dur[x];
    } else {
      var d :| d in g[x] && d in finishes && finishes[d] == start;
      assert IsCritical(g, dur, d, start);
      var c :| ChainTo(g, c, d) && Length(dur, c) == start;
      ChainExtends(g, dur, c, d, x);
    }
  }

  ghost predicate DependenciesIn(g: Dependencies, x: Id, ids: seq<Id>)
    requires x in g
  {
    forall d :: d in g[x] ==> d in ids
  }

  lemma PrefixIsSchedule(g: Dependencies, order: seq<Id>)
    requires |order| > 0 && Distinct(order) && DependenciesFirst(g, order)
    ensures Distinct(order[..|order| - 1]) && DependenciesFirst(g, order[..|order| - 1])
    ensures order[|order| - 1] in g ==> DependenciesIn(g, order[|order| - 1], order[..|order| - 1])
  {
  }

  ghost predicate AllCritical(g: Dependencies, dur: Durations, f: map<Id, int>, ids: seq<Id>)
    requires g.Keys <= dur.Keys
  {
    forall x :: x in ids ==> x in f && IsCritical(g, dur, x, f[x])
  }

  /** Whenever an item is reached, all its dependencies have a finish time. */
  ghost predicate NeverMissing(g: Dependencies, order: seq<Id>, dur: Durations)
    requires (forall x <- order :: x in g) && (forall x <- order :: x in dur)
  {
    forall n :: 0 <= n < |order| ==> AllFinished(g[order[n]], Finishes(g, order[..n], dur))
  }

  ghost predicate AllFinished(deps: seq<Id>, f: map<Id, int>) {
    forall d :: d in deps ==> d in f
  }

  lemma DependenciesFinish(g: Dependencies, order: seq<Id>, dur: Durations)
    requires (forall x <- order :: x in g) && (forall x <- order :: x in dur) && DependenciesFirst(g, order)
    ensures NeverMissing(g, order, dur)
  {
  }

  lemma LastIsCritical(g: Dependencies, order: seq<Id>, dur: Durations)
    requires g.Keys <= dur.Keys && (forall x <- order :: x in g) && |order| > 0 && Distinct(order)
    requires DependenciesIn(g, order[|order| - 1], order[..|order| - 1])
    requires AllCritical(g, dur, Finishes(g, order[..|order| - 1], dur), order[..|order| - 1])
    ensures AllCritical(g, dur, Finishes(g, order, dur), order)
  {
    var init, x := order[..|order| - 1], order[|order| - 1];
    var before, f := Finishes(g, init, dur), Finishes(g, order, dur);
    NextIsCritical(g, dur, before, x);
    forall y | y in order ensures y in f && IsCritical(g, dur, y, f[y]) {
      if y != x {
        assert y in init;
      }
    }
  }

  /**
   * Main result: along a schedule every finish time is the length of a longest chain, and no
   * dependency is ever missing when it is looked up.
   */
  lemma {:induction false} FinishesAreCritical(g: Dependencies, order: seq<Id>, dur: Durations)
    requires g.Keys <= dur.Keys && (forall x <- order :: x in g) && Distinct(order) && DependenciesFirst(g, order)
    ensures AllCritical(g, dur, Finishes(g, order, dur), order) && NeverMissing(g, order, dur)
    decreases |order|
  {
    DependenciesFinish(g, order, dur);
    if |order| > 0 {
      PrefixIsSchedule(g, order);
      FinishesAreCritical(g, order[..|order| - 1], dur);
      LastIsCritical(g, order, dur);
    }
  }

  lemma LengthMonotone(dur: Durations, longer: Durations, c: seq<Id>)
    requires forall x <- c :: x in dur && x in longer && dur[x] <= longer[x]
    ensures Length(dur, c) <= Length(longer, c)
  {
  }

  /** No chain, with the given durations, is longer than the bound. */
  ghost predicate ChainsWithin(g: Dependencies, dur: Durations, bound: int)
    requires g.Keys <= dur.Keys
  {
    forall c :: IsChain(g, c) ==> Length(dur, c) <= bound
  }

  /** If the longest durations leave no chain over the bound, nothing finishes after it. */
  lemma LatestWithin(g: Dependencies, order: seq<Id>, dur: Durations, longest: Durations, bound: nat)
    requires IsSchedule(g, order) && g.Keys <= dur.Keys && g.Keys <= longest.Keys
    requires (forall x <- g.Keys :: dur[x] <= longest[x]) && ChainsWithin(g, longest, bound)
    ensures Latest(Finishes(g, order, dur), order) <= bound
  {
    var f := Finishes(g, order, dur);
    FinishesAreCritical(g, order, dur);
    forall x | x in order ensures f[x] <= bound {
      assert IsCritical(g, dur, x, f[x]);
      var c :| ChainTo(g, c, x) && Length(dur, c) == f[x];
      LengthMonotone(dur, longest, c);
    }
    LatestBound(f, order, bound);
  }

  lemma LatestBound(finishes: map<Id, int>, order: seq<Id>, bound: nat)
    requires forall x <- order :: x in finishes && finishes[x] <= bound
    ensures Latest(finishes, order) <= bound
  {
  }

  // ----- Sums along an order -----

  function SumAlong<V(!new)>(order: seq<Id>, m: map<Id, V>, w: V -> int): int
    requires forall x <- order :: x in m
  {
    if |order| == 0 then 0 else SumAlong(order[..|order| - 1], m, w) + w(m[order[|order| - 1]])
  }

  /** The sum along any order of the items is the sum over the items. */
  lemma {:induction false} SumAlongIsTotal<V(!new)>(order: seq<Id>, m: map<Id, V>, w: V -> int)
    requires Distinct(order) && forall x :: x in order <==> x in m
    ensures SumAlong(order, m, w) == Total(m, w)
    decreases |order|
  {
    if |order| == 0 {
      assert m == map[];
    } else {
      var init, x := order[..|order| - 1], order[|order| - 1];
      var rest := m - {x};
      forall y ensures y in init <==> y in rest {
        assert y in order <==> y in init || y == x;
      }
      SumAlongIsTotal(init, rest, w);
      SumAlongSame(init, rest, m, w);
      TotalSplit(m, w, x);
    }
  }

  lemma SumAlongSame<V(!new)>(order: seq<Id>, m: map<Id, V>, n: map<Id, V>, w: V -> int)
    requires forall x <- order :: x in m && x in n && m[x] == n[x]
    ensures SumAlong(order, m, w) == SumAlong(order, n, w)
  {
  }
}
