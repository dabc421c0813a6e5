/** Runs in which candidates are governed in batches, each with a listing taken when it starts. */
module GovernorRuns {
  import opened Wrappers
  import opened Governance
  import opened GovernanceTheorems
  import opened Governor
  import opened GovernorWindows
  import opened GovernorBatches
  import opened Ranking

  /** The listing shows structured beliefs as they are now, every active one among them. */
  ghost predicate TakenFrom(listing: Beliefs, b: Base) {
    && (forall i :: i in listing ==> i in b.beliefs && listing[i] == b.beliefs[i] && listing[i].key.Some?)
    && ActiveListed(listing, b)
  }

  /** A candidate that no governor has decided about has no evidence but its own. */
  ghost predicate SingleSource(b: Base) {
    forall i :: i in b.beliefs && b.beliefs[i].status == Candidate && !b.beliefs[i].governed ==> |b.beliefs[i].sources| <= 1
  }

  /** Among the candidates of a batch, those with several sources have at most twenty listed peers. */
  ghost predicate CrowdsAreSingle(listing: Beliefs) {
    forall c :: c in Ungoverned(listing) ==> |listing[c].sources| <= 1 || |PeersOf(listing, c)| <= LIMIT
  }

  lemma SingleMeansCrowdsAreSingle(listing: Beliefs, b: Base)
    requires TakenFrom(listing, b) && SingleSource(b)
    ensures CrowdsAreSingle(listing)
  {
  }

  datatype Plan = Plan(
    listing: Beliefs, limit: int, cs: seq<Id>, similar: Id -> Similarity, found: seq<seq<Match>>, ev: Evidence, nows: seq<Time>)

  /** The candidates the governor takes from the listing and the matches it keeps for them. */
  ghost predicate Prepared(p: Plan) {
    && Front(AgeOrder(p.listing), Ungoverned(p.listing), p.cs, Bounded(p.limit))
    && Aligned(p) && Matched(p.listing, p.cs, p.found, p.similar)
  }

  predicate Aligned(p: Plan) {
    |p.found| == |p.cs| == |p.nows|
  }

  /** The base after the first n candidates of the batch. */
  ghost function At(p: Plan, b: Base, n: nat): Base
    requires Aligned(p) && n <= |p.cs|
  {
    After(b, p.cs, p.found, p.ev, p.nows, n)
  }

  ghost function RoundOf(p: Plan): Round
    requires |p.found| == |p.cs|
  {
    Round(p.listing, p.cs, seq(|p.cs|, j requires 0 <= j < |p.cs| => Near(p.found[j])))
  }

  lemma RoundIsSound(p: Plan, b: Base)
    requires Prepared(p) && TakenFrom(p.listing, b) && Functional(b)
    ensures Sound(RoundOf(p))
  {
    forall j | 0 <= j < |p.cs| ensures Window(p.listing, p.cs[j], Near(p.found[j])) {
      WindowOf(p.listing, p.cs[j], p.similar(p.cs[j]), p.found[j]);
    }
  }

  lemma RoundStarts(p: Plan, b: Base)
    requires Prepared(p) && TakenFrom(p.listing, b) && Functional(b) && CrowdsAreSingle(p.listing)
    ensures Halfway(RoundOf(p), b, 0)
  {
    var r := RoundOf(p);
    forall x | 0 <= x < |p.cs| && Crowded(r, x) ensures !Rich(b, p.cs[x]) {
      assert p.cs[x] in Ungoverned(p.listing);
      var t :| Peer(r.listing, r.cs[x], t) && t !in r.nears[x];
      if |PeersOf(p.listing, p.cs[x])| <= LIMIT {
        WindowOf(p.listing, p.cs[x], p.similar(p.cs[x]), p.found[x]);
        SmallGroupFits(p.listing, p.cs[x], Near(p.found[x]), t);
      }
    }
  }

  lemma MatchesAreSeen(listing: Beliefs, b: Base, c: Id, similar: Similarity, matches: seq<Match>)
    requires c in listing && FactsKept(listing, b) && Kept(listing, c, similar, matches)
    ensures Seen(listing, b, c, AsSet(matches), Near(matches))
  {
    forall t | t in Near(matches) ensures Peer(listing, c, t) && Match(t, ListedKind(listing, c, t)) in matches {
      NearIsMatched(listing, c, similar, matches, t);
    }
  }

  lemma BatchStep(p: Plan, b: Base, n: nat)
    requires Prepared(p) && Sound(RoundOf(p)) && n < |p.cs| && Halfway(RoundOf(p), At(p, b, n), n) && p.ev.minimum >= 2
    ensures Halfway(RoundOf(p), At(p, b, n + 1), n + 1)
  {
    var t := At(p, b, n);
    MatchesAreSeen(p.listing, t, p.cs[n], p.similar(p.cs[n]), p.found[n]);
    StepKeepsHalfway(RoundOf(p), t, n, AsSet(p.found[n]), p.ev, p.nows[n]);
  }

  lemma {:induction false} Climb(good: nat -> bool, n: nat)
    requires good(0) && forall k: nat :: k < n && good(k) ==> good(k + 1)
    ensures good(n)
    decreases n
  {
    if n > 0 {
      Climb(good, n - 1);
    }
  }

  ghost predicate HalfwayAt(p: Plan, b: Base, n: nat) {
    Aligned(p) && n <= |p.cs| && Halfway(RoundOf(p), At(p, b, n), n)
  }

  lemma HalfwayNext(p: Plan, b: Base, n: nat)
    requires Prepared(p) && Sound(RoundOf(p)) && p.ev.minimum >= 2 && n < |p.cs|
    ensures HalfwayAt(p, b, n) ==> HalfwayAt(p, b, n + 1)
  {
    if HalfwayAt(p, b, n) {
      BatchStep(p, b, n);
    }
  }

  lemma HalfwaySteps(p: Plan, b: Base)
    requires Prepared(p) && Sound(RoundOf(p)) && p.ev.minimum >= 2
    ensures forall k: nat :: k < |p.cs| && HalfwayAt(p, b, k) ==> HalfwayAt(p, b, k + 1)
  {
    forall k: nat | k < |p.cs| ensures HalfwayAt(p, b, k) ==> HalfwayAt(p, b, k + 1) {
      HalfwayNext(p, b, k);
    }
  }

  lemma {:induction false} ClimbHalfway(p: Plan, b: Base, n: nat)
    requires HalfwayAt(p, b, 0) && Aligned(p) && n <= |p.cs|
    requires forall k: nat :: k < |p.cs| && HalfwayAt(p, b, k) ==> HalfwayAt(p, b, k + 1)
    ensures HalfwayAt(p, b, n)
    decreases n
  {
    if n > 0 {
      ClimbHalfway(p, b, n - 1);
    }
  }

  lemma BatchHalfway(p: Plan, b: Base, n: nat)
    requires Prepared(p) && TakenFrom(p.listing, b) && Functional(b) && CrowdsAreSingle(p.listing) && p.ev.minimum >= 2 && n <= |p.cs|
    ensures Halfway(RoundOf(p), At(p, b, n), n)
  {
    RoundStarts(p, b);
    RoundIsSound(p, b);
    assert HalfwayAt(p, b, 0);
    HalfwaySteps(p, b);
    ClimbHalfway(p, b, n);
  }

  /**
   * A batch governed straight after its listing was taken keeps one active belief per key, whatever
   * the cap of twenty leaves out and whatever order the candidates come in.
   */
  lemma BatchKeepsFunctional(p: Plan, b: Base, n: nat)
    requires Prepared(p) && TakenFrom(p.listing, b) && Functional(b) && CrowdsAreSingle(p.listing) && p.ev.minimum >= 2 && n <= |p.cs|
    ensures Functional(At(p, b, n))
  {
    BatchHalfway(p, b, n);
  }

  lemma NextFunctionalExactly(p: Plan, b: Base, n: nat)
    requires Aligned(p) && n < |p.cs| && Functional(At(p, b, n))
    ensures Functional(At(p, b, n + 1)) <==> !PromotesBesidePeer(p, b, n)
  {
    GovernFunctionalExactly(At(p, b, n), p.cs[n], AsSet(p.found[n]), p.ev, p.nows[n]);
  }

  /** Whatever was listed when, the rule breaks in a batch exactly where a belief is promoted beside an active peer. */
  lemma {:induction false} BatchFunctionalExactly(p: Plan, b: Base)
    requires Aligned(p) && Functional(b)
    ensures (forall n: nat :: n <= |p.cs| ==> Functional(At(p, b, n))) <==>
              forall n: nat :: n < |p.cs| ==> !PromotesBesidePeer(p, b, n)
  {
    if forall n: nat :: n < |p.cs| ==> !PromotesBesidePeer(p, b, n) {
      forall n: nat | n <= |p.cs| ensures Functional(At(p, b, n)) {
        NoPromotionBesidePeer(p, b, n);
      }
    }
    if forall n: nat :: n <= |p.cs| ==> Functional(At(p, b, n)) {
      forall n: nat | n < |p.cs| ensures !PromotesBesidePeer(p, b, n) {
        assert Functional(At(p, b, n)) && Functional(At(p, b, n + 1));
        NextFunctionalExactly(p, b, n);
      }
    }
  }

  ghost predicate PromotesBesidePeer(p: Plan, b: Base, n: nat)
    requires Aligned(p) && n < |p.cs|
  {
    var t := At(p, b, n);
    && Promotes(t, p.cs[n], AsSet(p.found[n]), p.ev, p.nows[n])
    && t.beliefs[p.cs[n]].key.Some? && HasActivePeer(t, p.cs[n])
  }

  lemma NoPromotionBesidePeer(p: Plan, b: Base, n: nat)
    requires Aligned(p) && Functional(b) && n <= |p.cs|
    requires forall k: nat :: k < n ==> !PromotesBesidePeer(p, b, k)
    ensures Functional(At(p, b, n))
  {
    var good := (k: nat) => k <= |p.cs| && Functional(At(p, b, k));
    forall k: nat | k < n && good(k) ensures good(k + 1) {
      NextFunctionalExactly(p, b, k);
    }
    Climb(good, n);
  }

  // ----- Runs -----

  datatype Act = Do(op: Op) | Batch(plan: Plan)

  ghost predicate Acts(b: Base, act: Act, t: Base) {
    match act
    case Do(op) => !op.DoGovern? && Step(b, op, t)
    case Batch(p) => Prepared(p) && t == At(p, b, |p.cs|)
  }

  /** Batches run on a fresh listing and ask for two pieces of evidence; large groups hold single candidates. */
  ghost predicate Orderly(b: Base, act: Act) {
    act.Batch? ==> TakenFrom(act.plan.listing, b) && act.plan.ev.minimum >= 2 && CrowdsAreSingle(act.plan.listing)
  }

  /** No candidate that has gathered evidence is edited. */
  ghost predicate EditsSingle(b: Base, act: Act) {
    act.Do? && act.op.DoEdit? && act.op.id in b.beliefs && b.beliefs[act.op.id].status == Candidate ==>
      |b.beliefs[act.op.id].sources| <= 1
  }

  ghost predicate IsOrderlyRun(states: seq<Base>, acts: seq<Act>) {
    && |states| == |acts| + 1
    && forall i :: 0 <= i < |acts| ==> Acts(states[i], acts[i], states[i + 1]) && Orderly(states[i], acts[i])
  }

  lemma JudgeKeepsSingleSource(b: Base, c: Id, matches: set<Match>, ev: Evidence, now: Time)
    requires SingleSource(b) && WellJudged(b, c, matches, ev, now)
    ensures SingleSource(Judge(b, c, matches, ev, now).0)
  {
    ChosenFacts(b, c, matches);
    JudgeSettles(b, c, matches, ev, now);
    var t := Judge(b, c, matches, ev, now).0;
    forall i | i in t.beliefs && t.beliefs[i].status == Candidate && !t.beliefs[i].governed
      ensures |t.beliefs[i].sources| <= 1
    {
      JudgedFacts(b, c, matches, ev, now, i);
    }
  }

  lemma StepKeepsSingleSource(b: Base, op: Op, t: Base)
    requires SingleSource(b) && Step(b, op, t) && EditsSingle(b, Do(op))
    ensures SingleSource(t)
  {
    match op
    case DoExtract(_, _, _) =>
    case DoGovern(c, matches, ev, now) =>
      if WellJudged(b, c, matches, ev, now) {
        JudgeKeepsSingleSource(b, c, matches, ev, now);
      }
    case DoConfirm(_, _) =>
    case DoEdit(_, _, _) =>
    case DoForget(_) =>
    case DoRetire(_) =>
    case DoLapse(_) =>
  }

  lemma {:induction false} BatchKeepsForest(p: Plan, b: Base, n: nat)
    requires Aligned(p) && Forest(b) && n <= |p.cs|
    ensures Forest(At(p, b, n))
    decreases n
  {
    if n > 0 {
      BatchKeepsForest(p, b, n - 1);
      GovernKeepsForest(At(p, b, n - 1), p.cs[n - 1], AsSet(p.found[n - 1]), p.ev, p.nows[n - 1]);
    }
  }

  lemma {:induction false} BatchKeepsSingle(p: Plan, b: Base, n: nat)
    requires Aligned(p) && SingleSource(b) && n <= |p.cs|
    ensures SingleSource(At(p, b, n))
    decreases n
  {
    if n > 0 {
      BatchKeepsSingle(p, b, n - 1);
      StepKeepsSingleSource(At(p, b, n - 1), DoGovern(p.cs[n - 1], AsSet(p.found[n - 1]), p.ev, p.nows[n - 1]), At(p, b, n));
    }
  }

  lemma ActKeepsInv(b: Base, act: Act, t: Base)
    requires Inv(b) && Acts(b, act, t) && Orderly(b, act)
    ensures Inv(t)
  {
    match act
    case Do(op) => StepKeepsInv(b, op, t);
    case Batch(p) =>
      BatchKeepsFunctional(p, b, |p.cs|);
      BatchKeepsForest(p, b, |p.cs|);
  }

  lemma ActKeepsSingle(b: Base, act: Act, t: Base)
    requires SingleSource(b) && Acts(b, act, t) && EditsSingle(b, act)
    ensures SingleSource(t)
  {
    match act
    case Do(op) => StepKeepsSingleSource(b, op, t);
    case Batch(p) => BatchKeepsSingle(p, b, |p.cs|);
  }

  /**
   * Main result: over every run of extractions, edits, confirmations, retention and batches of the
   * governor on a fresh listing, each agent has at most one active belief per key, as long as the
   * candidates of groups larger than the cap have one source each.
   */
  lemma {:induction false} OrderlyRunKeepsInv(states: seq<Base>, acts: seq<Act>)
    requires IsOrderlyRun(states, acts) && Inv(states[0])
    ensures Inv(states[|acts|])
    decreases |acts|
  {
    if |acts| > 0 {
      ActKeepsInv(states[0], acts[0], states[1]);
      OrderlyRunKeepsInv(states[1..], acts[1..]);
    }
  }

  /** Which they have whenever no candidate that has gathered evidence was edited. */
  lemma {:induction false} UneditedRunKeepsSingle(states: seq<Base>, acts: seq<Act>)
    requires |states| == |acts| + 1 && SingleSource(states[0])
    requires forall i :: 0 <= i < |acts| ==> Acts(states[i], acts[i], states[i + 1]) && EditsSingle(states[i], acts[i])
    ensures SingleSource(states[|acts|])
    ensures forall listing :: TakenFrom(listing, states[|acts|]) ==> CrowdsAreSingle(listing)
    decreases |acts|
  {
    if |acts| > 0 {
      ActKeepsSingle(states[0], acts[0], states[1]);
      forall i | 0 <= i < |acts[1..]|
        ensures Acts(states[1..][i], acts[1..][i], states[1..][i + 1]) && EditsSingle(states[1..][i], acts[1..][i])
      {
        assert states[1..][i] == states[i + 1] && states[1..][i + 1] == states[i + 2] && acts[1..][i] == acts[i + 1];
      }
      UneditedRunKeepsSingle(states[1..], acts[1..]);
    }
    forall listing | TakenFrom(listing, states[|acts|]) ensures CrowdsAreSingle(listing) {
      SingleMeansCrowdsAreSingle(listing, states[|acts|]);
    }
  }

  const EMPTY: Base := Base(map[], {}, {})

  lemma EmptyIsOrderly()
    ensures Inv(EMPTY) && SingleSource(EMPTY)
  {
  }
}
