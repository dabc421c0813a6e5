/**
 * How the governor finds the matches of a candidate (src/memory/memory-governor.ts): it compares the
 * candidate with a listing taken once for the whole batch, sorts what it found and keeps twenty.
 */
module Governor {
  import opened Wrappers
  import opened Governance
  import opened GovernanceTheorems
  import opened BeliefRepositories
  import opened Ranking

  const LIMIT: nat := 20

  /** Which pairs of beliefs an embedding found similar, and how much; the score of other matches is 1. */
  type Similarity = Id -> Option<real>

  /** The listing may hold only live beliefs that were structured when it was taken. */
  function Classify(listing: Beliefs, c: Id, p: Id, similar: Similarity): Option<Match>
    requires c in listing && p in listing
  {
    if p == c || listing[p].agent != listing[c].agent then None
    else if SameFact(listing[p], listing[c]) then Some(Match(p, ExactDuplicate))
    else if SamePredicate(listing[p], listing[c]) then Some(Match(p, Conflict))
    else if similar(p).Some? then Some(Match(p, SemanticDuplicate))
    else None
  }

  function AllMatches(listing: Beliefs, c: Id, similar: Similarity): set<Match>
    requires c in listing
  {
    set p | p in listing && Classify(listing, c, p, similar).Some? :: Classify(listing, c, p, similar).value
  }

  function Score(m: Match, similar: Similarity): real {
    if m.kind == SemanticDuplicate && similar(m.target).Some? then similar(m.target).value else 1.0
  }

  predicate ListedActive(listing: Beliefs, m: Match) {
    m.target in listing && listing[m.target].status == Active
  }

  /** Semantic matches last, listed-active targets first, then by score and identifier. */
  function MatchOrder(listing: Beliefs, similar: Similarity): (Match, Match) -> bool {
    (x: Match, y: Match) =>
      if (x.kind == SemanticDuplicate) != (y.kind == SemanticDuplicate) then y.kind == SemanticDuplicate
      else if ListedActive(listing, x) != ListedActive(listing, y) then ListedActive(listing, x)
      else if Score(x, similar) != Score(y, similar) then Score(x, similar) > Score(y, similar)
      else x.target.rank <= y.target.rank
  }

  /** A match of the candidate: another listed belief of its agent, with the same fact, the same predicate, or a similar text. */
  ghost predicate IsMatch(listing: Beliefs, c: Id, similar: Similarity, m: Match)
    requires c in listing
  {
    && m.target in listing && m.target != c && listing[m.target].agent == listing[c].agent
    && m.kind == (if listing[m.target].key != listing[c].key then SemanticDuplicate
                  else if listing[m.target].value == listing[c].value then ExactDuplicate else Conflict)
    && (m.kind == SemanticDuplicate ==> similar(m.target).Some?)
  }

  /** How the matches are sorted: semantic ones last, targets listed as active first, then the higher score, then the identifier. */
  ghost predicate SortedBefore(listing: Beliefs, similar: Similarity, x: Match, y: Match)
    requires x.target in listing && y.target in listing
    requires x.kind == SemanticDuplicate ==> similar(x.target).Some?
    requires y.kind == SemanticDuplicate ==> similar(y.target).Some?
  {
    var lower := x.kind != SemanticDuplicate && y.kind == SemanticDuplicate;
    var same := x.kind == SemanticDuplicate <==> y.kind == SemanticDuplicate;
    var active := listing[x.target].status == Active && listing[y.target].status != Active;
    var alike := listing[x.target].status == Active <==> listing[y.target].status == Active;
    var score := if x.kind == SemanticDuplicate then similar(x.target).value else 1.0;
    var other := if y.kind == SemanticDuplicate then similar(y.target).value else 1.0;
    lower || (same && (active || (alike && (score > other || (score == other && x.target.rank <= y.target.rank)))))
  }

  lemma MatchesMean(listing: Beliefs, c: Id, similar: Similarity, m: Match)
    requires c in listing
    ensures m in AllMatches(listing, c, similar) <==> IsMatch(listing, c, similar, m)
  {
    if IsMatch(listing, c, similar, m) {
      assert Classify(listing, c, m.target, similar) == Some(m);
    }
  }

  lemma OrderMeans(listing: Beliefs, c: Id, similar: Similarity, x: Match, y: Match)
    requires c in listing && IsMatch(listing, c, similar, x) && IsMatch(listing, c, similar, y)
    ensures MatchOrder(listing, similar)(x, y) <==> SortedBefore(listing, similar, x, y)
  {
  }

  /** What is kept: the first twenty matches, in this order. */
  lemma KeptMeans(listing: Beliefs, c: Id, similar: Similarity, matches: seq<Match>)
    requires c in listing && Front(MatchOrder(listing, similar), AllMatches(listing, c, similar), matches, LIMIT)
    ensures |matches| <= 20 && forall i :: 0 <= i < |matches| ==> IsMatch(listing, c, similar, matches[i])
    ensures forall i, j :: 0 <= i < j < |matches| ==> matches[i] != matches[j] && SortedBefore(listing, similar, matches[i], matches[j])
    ensures forall m :: IsMatch(listing, c, similar, m) && m !in matches ==>
              |matches| == 20 && forall i :: 0 <= i < 20 ==> SortedBefore(listing, similar, matches[i], m)
  {
    forall m ensures m in AllMatches(listing, c, similar) <==> IsMatch(listing, c, similar, m) {
      MatchesMean(listing, c, similar, m);
    }
    forall x, y | IsMatch(listing, c, similar, x) && IsMatch(listing, c, similar, y)
      ensures MatchOrder(listing, similar)(x, y) <==> SortedBefore(listing, similar, x, y)
    {
      OrderMeans(listing, c, similar, x, y);
    }
  }

  /** The loop over the listing, then sort and slice. */
  method MatchesFor(listing: Beliefs, c: Id, similar: Similarity) returns (matches: seq<Match>)
    requires c in listing
    ensures Front(MatchOrder(listing, similar), AllMatches(listing, c, similar), matches, LIMIT)
  {
    var found: set<Match> := {};
    var left := listing.Keys;
    while left != {}
      invariant left <= listing.Keys
      invariant found == set p | p in listing.Keys - left && Classify(listing, c, p, similar).Some? :: Classify(listing, c, p, similar).value
      decreases |left|
    {
      var p :| p in left;
      var match_ := Classify(listing, c, p, similar);
      if match_.Some? {
        found := found + {match_.value};
      }
      left := left - {p};
    }
    matches := Select(MatchOrder(listing, similar), found, LIMIT);
  }

  /** What the listing says beliefs state is still what they state; statuses may have moved on. */
  ghost predicate FactsKept(listing: Beliefs, b: Base) {
    forall i :: i in listing ==> i in b.beliefs && listing[i].agent == b.beliefs[i].agent
                                 && listing[i].key == b.beliefs[i].key && listing[i].value == b.beliefs[i].value
  }

  /** No active belief about the candidate's key was cut off the listing. */
  ghost predicate PeersListed(listing: Beliefs, b: Base, c: Id)
    requires c in b.beliefs
  {
    forall p :: p in Peers(b, c) && SamePredicate(b.beliefs[p], b.beliefs[c]) ==> p in listing
  }

  ghost predicate UpToDate(listing: Beliefs, b: Base) {
    forall i :: i in listing ==> i in b.beliefs && (listing[i].status == Active <==> b.beliefs[i].status == Active)
  }

  function KindFor(b: Base, c: Id, p: Id): MatchType
    requires c in b.beliefs && p in b.beliefs
  {
    if SameFact(b.beliefs[p], b.beliefs[c]) then ExactDuplicate else Conflict
  }

  /** An active belief about the candidate's key is among the matches before the slice. */
  lemma PeerIsFound(listing: Beliefs, b: Base, c: Id, similar: Similarity, p: Id)
    requires FactsKept(listing, b) && c in listing && p in listing && p in Peers(b, c) && SamePredicate(b.beliefs[p], b.beliefs[c])
    ensures Match(p, KindFor(b, c, p)) in AllMatches(listing, c, similar)
  {
  }

  /** With an up-to-date listing, the only match that can come before an active peer is itself. */
  lemma PeerComesFirst(listing: Beliefs, b: Base, c: Id, similar: Similarity, p: Id, x: Match)
    requires Functional(b) && FactsKept(listing, b) && UpToDate(listing, b) && c in listing && p in listing
    requires p in Peers(b, c) && b.beliefs[p].key.Some? && SamePredicate(b.beliefs[p], b.beliefs[c])
    requires x in AllMatches(listing, c, similar) && MatchOrder(listing, similar)(x, Match(p, KindFor(b, c, p)))
    ensures x == Match(p, KindFor(b, c, p))
  {
    assert p in listing && ListedActive(listing, Match(p, KindFor(b, c, p)));
    var q :| q in listing && Classify(listing, c, q, similar) == Some(x);
    OrderedBefore(listing, similar, x, Match(p, KindFor(b, c, p)));
    ListedActiveIsPeer(listing, b, c, similar, q, x);
    assert Rivals(b.beliefs[p], b.beliefs[q]);
  }

  lemma OrderedBefore(listing: Beliefs, similar: Similarity, x: Match, y: Match)
    requires MatchOrder(listing, similar)(x, y) && y.kind != SemanticDuplicate && ListedActive(listing, y)
    ensures x.kind != SemanticDuplicate && ListedActive(listing, x)
  {
  }

  lemma ListedActiveIsPeer(listing: Beliefs, b: Base, c: Id, similar: Similarity, q: Id, x: Match)
    requires FactsKept(listing, b) && UpToDate(listing, b) && c in listing && q in listing
    requires Classify(listing, c, q, similar) == Some(x) && x.kind != SemanticDuplicate && ListedActive(listing, x)
    ensures x.target == q && q in Peers(b, c) && SamePredicate(b.beliefs[q], b.beliefs[c]) && x.kind == KindFor(b, c, q)
  {
  }

  ghost function AsSet(matches: seq<Match>): set<Match> {
    set m | m in matches
  }

  /** While the listing is up to date the cap of twenty loses nothing; only a cut listing can. */
  lemma FreshListingIsComplete(listing: Beliefs, b: Base, c: Id, similar: Similarity, matches: seq<Match>)
    requires Functional(b) && FactsKept(listing, b) && UpToDate(listing, b) && c in listing && b.beliefs[c].key.Some?
    requires Front(MatchOrder(listing, similar), AllMatches(listing, c, similar), matches, LIMIT)
    ensures Complete(b, c, AsSet(matches)) <==> PeersListed(listing, b, c)
  {
    forall p | p in Peers(b, c) && SamePredicate(b.beliefs[p], b.beliefs[c]) && p in listing
      ensures Match(p, KindFor(b, c, p)) in matches
    {
      PeerIsFound(listing, b, c, similar, p);
      if Match(p, KindFor(b, c, p)) !in matches {
        PeerComesFirst(listing, b, c, similar, p, matches[0]);
      }
    }
  }

  /** Nor does an old listing lose anything when the candidate has fewer matches than the cap. */
  lemma FewMatchesAreComplete(listing: Beliefs, b: Base, c: Id, similar: Similarity, matches: seq<Match>)
    requires FactsKept(listing, b) && c in listing && b.beliefs[c].key.Some?
    requires Front(MatchOrder(listing, similar), AllMatches(listing, c, similar), matches, LIMIT) && |matches| < LIMIT
    ensures Complete(b, c, AsSet(matches)) <==> PeersListed(listing, b, c)
  {
  }

  // ----- The batch -----

  const BATCH: nat := 500

  function CreatedAt(listing: Beliefs, i: Id): Time {
    if i in listing then listing[i].createdAt else 0
  }

  function AgeOrder(listing: Beliefs): (Id, Id) -> bool {
    (i: Id, j: Id) => CreatedAt(listing, i) < CreatedAt(listing, j) || (CreatedAt(listing, i) == CreatedAt(listing, j) && i.rank <= j.rank)
  }

  /** The listed candidates that no current governor has decided about. */
  function Ungoverned(listing: Beliefs): set<Id> {
    set i | i in listing && listing[i].status == Candidate && !listing[i].governed
  }

  function Bounded(limit: int): nat {
    if limit < 1 then 1 else if limit > BATCH then BATCH else limit
  }

  ghost predicate Waiting(listing: Beliefs, i: Id) {
    i in listing && listing[i].status == Candidate && !listing[i].governed
  }

  ghost predicate NotYounger(listing: Beliefs, i: Id, j: Id)
    requires i in listing && j in listing
  {
    listing[i].createdAt < listing[j].createdAt || (listing[i].createdAt == listing[j].createdAt && i.rank <= j.rank)
  }

  /** Candidates that wait for the governor, oldest first; one is left out only when there are n that are not younger. */
  ghost predicate TakenByAge(listing: Beliefs, cs: seq<Id>, n: nat) {
    && |cs| <= n && (forall i :: 0 <= i < |cs| ==> Waiting(listing, cs[i]))
    && (forall i, j :: 0 <= i < j < |cs| ==> cs[i] != cs[j] && NotYounger(listing, cs[i], cs[j]))
    && forall x :: Waiting(listing, x) && x !in cs ==> |cs| == n && forall i :: 0 <= i < n ==> NotYounger(listing, cs[i], x)
  }

  lemma AgeMeans(listing: Beliefs, i: Id, j: Id)
    requires i in listing && j in listing
    ensures AgeOrder(listing)(i, j) <==> NotYounger(listing, i, j)
  {
  }

  lemma FrontIsByAge(listing: Beliefs, cs: seq<Id>, n: nat)
    requires Front(AgeOrder(listing), Ungoverned(listing), cs, n)
    ensures TakenByAge(listing, cs, n)
  {
    forall x | Waiting(listing, x) && x !in cs ensures |cs| == n && forall i :: 0 <= i < n ==> NotYounger(listing, cs[i], x) {
      assert x in Ungoverned(listing);
      forall i | 0 <= i < |cs| ensures NotYounger(listing, cs[i], x) {
        assert AgeOrder(listing)(cs[i], x);
        AgeMeans(listing, cs[i], x);
      }
    }
  }

  /** For each of the first candidates, the matches that were kept. */
  ghost predicate Matched(listing: Beliefs, cs: seq<Id>, found: seq<seq<Match>>, similar: Id -> Similarity) {
    && |found| <= |cs|
    && forall j :: 0 <= j < |found| ==> cs[j] in listing && Kept(listing, cs[j], similar(cs[j]), found[j])
  }

  ghost predicate Kept(listing: Beliefs, c: Id, similar: Similarity, matches: seq<Match>)
    requires c in listing
  {
    Front(MatchOrder(listing, similar), AllMatches(listing, c, similar), matches, LIMIT)
  }

  /** The base after the first n candidates were governed. */
  ghost function After(b: Base, cs: seq<Id>, found: seq<seq<Match>>, ev: Evidence, nows: seq<Time>, n: nat): Base
    requires n <= |cs| && n <= |found| && n <= |nows|
  {
    if n == 0 then b else Govern(After(b, cs, found, ev, nows, n - 1), cs[n - 1], AsSet(found[n - 1]), ev, nows[n - 1]).0
  }

  lemma {:induction false} AfterPrefix(b: Base, cs: seq<Id>, found: seq<seq<Match>>, more: seq<seq<Match>>, ev: Evidence, nows: seq<Time>, n: nat)
    requires n <= |cs| && n <= |found| && n <= |nows|
    ensures After(b, cs, found + more, ev, nows, n) == After(b, cs, found, ev, nows, n)
    decreases n
  {
    if n > 0 {
      AfterPrefix(b, cs, found, more, ev, nows, n - 1);
      assert (found + more)[n - 1] == found[n - 1];
    }
  }

  lemma MatchedMore(listing: Beliefs, cs: seq<Id>, found: seq<seq<Match>>, similar: Id -> Similarity, matches: seq<Match>)
    requires Matched(listing, cs, found, similar) && |found| < |cs|
    requires cs[|found|] in listing && Kept(listing, cs[|found|], similar(cs[|found|]), matches)
    ensures Matched(listing, cs, found + [matches], similar)
  {
  }

  /** The base t after governing the first candidates, and what each of them was answered. */
  ghost predicate Governed(
    b: Base, cs: seq<Id>, found: seq<seq<Match>>, ev: Evidence, nows: seq<Time>, t: Base, actions: seq<Action>) {
    && |actions| == |found| <= |cs| == |nows| && t == After(b, cs, found, ev, nows, |found|)
    && forall j :: 0 <= j < |found| ==> AnsweredAt(b, cs, found, ev, nows, actions[j], j)
  }

  ghost predicate AnsweredAt(b: Base, cs: seq<Id>, found: seq<seq<Match>>, ev: Evidence, nows: seq<Time>, action: Action, j: nat)
    requires j < |cs| && j < |found| && j < |nows|
  {
    action == Govern(After(b, cs, found, ev, nows, j), cs[j], AsSet(found[j]), ev, nows[j]).1
  }

  lemma AfterNext(b: Base, cs: seq<Id>, found: seq<seq<Match>>, ev: Evidence, nows: seq<Time>, n: nat)
    requires n < |cs| && n < |found| && n < |nows|
    ensures After(b, cs, found, ev, nows, n + 1) == Govern(After(b, cs, found, ev, nows, n), cs[n], AsSet(found[n]), ev, nows[n]).0
  {
  }

  /** More matches found later do not change what an earlier candidate was answered. */
  lemma EarlierAnswer(
    b: Base, cs: seq<Id>, found: seq<seq<Match>>, ev: Evidence, nows: seq<Time>, t: Base, actions: seq<Action>, matches: seq<Match>, j: nat)
    requires Governed(b, cs, found, ev, nows, t, actions) && j < |found| < |cs|
    ensures AnsweredAt(b, cs, found + [matches], ev, nows, actions[j], j)
  {
    AfterPrefix(b, cs, found, [matches], ev, nows, j);
    assert AnsweredAt(b, cs, found, ev, nows, actions[j], j);
    assert (found + [matches])[j] == found[j];
  }

  lemma LastAnswer(
    b: Base, cs: seq<Id>, found: seq<seq<Match>>, ev: Evidence, nows: seq<Time>, t: Base, matches: seq<Match>, u: Base, action: Action)
    requires |found| < |cs| == |nows| && t == After(b, cs, found, ev, nows, |found|)
    requires (u, action) == Govern(t, cs[|found|], AsSet(matches), ev, nows[|found|])
    ensures u == After(b, cs, found + [matches], ev, nows, |found| + 1)
    ensures AnsweredAt(b, cs, found + [matches], ev, nows, action, |found|)
  {
    AfterPrefix(b, cs, found, [matches], ev, nows, |found|);
    assert (found + [matches])[|found|] == matches;
    AfterNext(b, cs, found + [matches], ev, nows, |found|);
  }

  lemma OneMore(
    b: Base, cs: seq<Id>, found: seq<seq<Match>>, ev: Evidence, nows: seq<Time>, t: Base, actions: seq<Action>,
    matches: seq<Match>, u: Base, action: Action)
    requires Governed(b, cs, found, ev, nows, t, actions) && |found| < |cs|
    requires (u, action) == Govern(t, cs[|found|], AsSet(matches), ev, nows[|found|])
    ensures Governed(b, cs, found + [matches], ev, nows, u, actions + [action])
  {
    LastAnswer(b, cs, found, ev, nows, t, matches, u, action);
    forall j | 0 <= j < |found| + 1 ensures AnsweredAt(b, cs, found + [matches], ev, nows, (actions + [action])[j], j) {
      if j < |found| {
        EarlierAnswer(b, cs, found, ev, nows, t, actions, matches, j);
      }
    }
  }

  class MemoryGovernor {
    const repository: BeliefRepository

    constructor (repository: BeliefRepository)
      ensures this.repository == repository
    {
      this.repository := repository;
    }

    /** The oldest ungoverned candidates of the listing, at most the limit and at most 500. */
    method Candidates(listing: Beliefs, limit: int) returns (cs: seq<Id>)
      ensures Front(AgeOrder(listing), Ungoverned(listing), cs, Bounded(limit))
      ensures TakenByAge(listing, cs, if limit < 1 then 1 else if limit > 500 then 500 else limit)
    {
      cs := Select(AgeOrder(listing), Ungoverned(listing), Bounded(limit));
      FrontIsByAge(listing, cs, Bounded(limit));
    }

    method GovernNext(listing: Beliefs, c: Id, similar: Similarity, ev: Evidence, now: Time)
      returns (matches: seq<Match>, action: Action)
      requires c in listing
      modifies repository
      ensures Kept(listing, c, similar, matches)
      ensures (repository.State(), action) == Govern(old(repository.State()), c, AsSet(matches), ev, now)
    {
      matches := MatchesFor(listing, c, similar);
      var targets := set m | m in matches;
      assert targets == AsSet(matches);
      action := repository.GovernCandidate(c, targets, ev, now);
    }

    /** The loop over the candidates, each matched against the one listing. */
    method GovernListed(listing: Beliefs, cs: seq<Id>, similar: Id -> Similarity, ev: Evidence, nows: seq<Time>)
      returns (found: seq<seq<Match>>, actions: seq<Action>)
      requires |nows| == |cs| && forall c :: c in cs ==> c in listing
      modifies repository
      ensures |found| == |cs| && Matched(listing, cs, found, similar)
      ensures Governed(old(repository.State()), cs, found, ev, nows, repository.State(), actions)
    {
      ghost var b := repository.State();
      found, actions := [], [];
      for n := 0 to |cs|
        invariant |found| == n && Matched(listing, cs, found, similar)
        invariant Governed(b, cs, found, ev, nows, repository.State(), actions)
      {
        ghost var t := repository.State();
        var matches, action := GovernNext(listing, cs[n], similar(cs[n]), ev, nows[n]);
        OneMore(b, cs, found, ev, nows, t, actions, matches, repository.State(), action);
        MatchedMore(listing, cs, found, similar, matches);
        found, actions := found + [matches], actions + [action];
      }
    }
  }
}
