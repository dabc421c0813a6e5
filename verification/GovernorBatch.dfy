/**
 * A batch with an up-to-date listing keeps one active belief per key, although it matches later
 * candidates against statuses that earlier ones have changed and keeps only twenty matches.
 */
module GovernorBatches {
  import opened Wrappers
  import opened Governance
  import opened GovernanceTheorems
  import opened Governor
  import opened GovernorWindows

  /** The listing, the candidates, and the peers each candidate is matched with. */
  datatype Round = Round(listing: Beliefs, cs: seq<Id>, nears: seq<set<Id>>)

  ghost predicate Sound(r: Round) {
    && |r.cs| == |r.nears|
    && (forall i, j :: 0 <= i < j < |r.cs| ==> r.cs[i] != r.cs[j])
    && (forall j :: 0 <= j < |r.cs| ==> r.cs[j] in r.listing && Window(r.listing, r.cs[j], r.nears[j]))
    && (forall i :: i in r.listing ==> r.listing[i].key.Some?)
    && (forall i, j :: i in r.listing && j in r.listing && Rivals(r.listing[i], r.listing[j]) ==> i == j)
  }

  // ----- One judgement, as its window sees it -----

  /** The matches about the candidate's key are those in its window, classified by the listing. */
  ghost predicate Seen(listing: Beliefs, b: Base, c: Id, matches: set<Match>, near: set<Id>) {
    && c in listing && FactsKept(listing, b)
    && (forall m :: m in matches && m.kind != SemanticDuplicate ==> m.target in near)
    && (forall t :: t in near ==> Peer(listing, c, t) && Match(t, ListedKind(listing, c, t)) in matches)
  }

  predicate Dead(b: Base, i: Id) {
    i in b.beliefs && !Live(b.beliefs[i].status)
  }

  predicate IsActive(b: Base, i: Id) {
    i in b.beliefs && b.beliefs[i].status == Active
  }

  ghost predicate OthersDead(b: Base, near: set<Id>, x: Id) {
    forall d :: d in near && d != x ==> Dead(b, d)
  }

  lemma SeenIsWeighed(listing: Beliefs, b: Base, c: Id, matches: set<Match>, near: set<Id>, d: Id)
    requires Seen(listing, b, c, matches, near) && c in b.beliefs && Live(b.beliefs[c].status)
    requires d in near && !Dead(b, d)
    ensures d in Equivalents(b, c, matches) || d in Conflicts(b, c, Chosen(b, c, matches), matches)
  {
    assert Match(d, ListedKind(listing, c, d)) in matches;
    assert Usable(b, c, d);
    ChosenFacts(b, c, matches);
  }

  lemma EquivalentIsSeen(listing: Beliefs, b: Base, c: Id, matches: set<Match>, near: set<Id>, d: Id)
    requires Seen(listing, b, c, matches, near) && c in b.beliefs
    requires d in Equivalents(b, c, matches) && d != c
    ensures d in near && !Dead(b, d) && Peer(listing, c, d)
  {
  }

  /** Without conflicts everything the candidate was matched with dies, except the canonical belief. */
  lemma MergedAway(listing: Beliefs, b: Base, c: Id, matches: set<Match>, near: set<Id>, ev: Evidence, now: Time)
    requires WellJudged(b, c, matches, ev, now) && Seen(listing, b, c, matches, near)
    requires Conflicts(b, c, Chosen(b, c, matches), matches) == {}
    ensures var t, k := Judge(b, c, matches, ev, now).0, Chosen(b, c, matches);
            OthersDead(t, near, k) && (c != k ==> Dead(t, c))
  {
    var t, k := Judge(b, c, matches, ev, now).0, Chosen(b, c, matches);
    forall d | d in near && d != k ensures Dead(t, d) {
      JudgedFacts(b, c, matches, ev, now, d);
      if !Dead(b, d) {
        SeenIsWeighed(listing, b, c, matches, near, d);
      }
    }
    JudgedFacts(b, c, matches, ev, now, c);
  }

  /** A canonical belief is still a candidate, or is activated, only if it met no conflict and nothing active. */
  lemma UndisputedMeetsNoActive(listing: Beliefs, b: Base, c: Id, matches: set<Match>, near: set<Id>, ev: Evidence, now: Time)
    requires WellJudged(b, c, matches, ev, now) && Seen(listing, b, c, matches, near)
    requires var k := Chosen(b, c, matches);
             k in b.beliefs && (Judge(b, c, matches, ev, now).0.beliefs[k].status == Candidate || Promotes(b, c, matches, ev, now))
    ensures var k := Chosen(b, c, matches);
            && Conflicts(b, c, k, matches) == {} && b.beliefs[k].status == Candidate
            && forall d :: d in near ==> !IsActive(b, d)
  {
    var k := Chosen(b, c, matches);
    ChosenFacts(b, c, matches);
    JudgedFacts(b, c, matches, ev, now, k);
    WeighedFacts(b, c, matches, k);
    forall d | d in near ensures !IsActive(b, d) {
      if !Dead(b, d) {
        SeenIsWeighed(listing, b, c, matches, near, d);
      }
    }
  }

  /** A candidate none of whose peers is alive is judged alone. */
  lemma JudgedAlone(listing: Beliefs, b: Base, c: Id, matches: set<Match>, near: set<Id>, ev: Evidence, now: Time)
    requires WellJudged(b, c, matches, ev, now) && Seen(listing, b, c, matches, near)
    requires forall d :: d in near ==> Dead(b, d)
    ensures Chosen(b, c, matches) == c && Judge(b, c, matches, ev, now).0.beliefs[c].sources == b.beliefs[c].sources
  {
    forall d | d in Equivalents(b, c, matches) ensures d == c {
      if d != c {
        EquivalentIsSeen(listing, b, c, matches, near, d);
      }
    }
    assert Equivalents(b, c, matches) == {c};
    JudgedFacts(b, c, matches, ev, now, c);
    assert AllSources(b.beliefs, {c}) == b.beliefs[c].sources;
  }

  lemma PromotedHasTwo(b: Base, c: Id, matches: set<Match>, ev: Evidence, now: Time)
    requires Promotes(b, c, matches, ev, now) && ev.minimum >= 2
    ensures var k := Chosen(b, c, matches);
            k in b.beliefs && |Judge(b, c, matches, ev, now).0.beliefs[k].sources| >= 2
  {
    var k := Chosen(b, c, matches);
    ChosenFacts(b, c, matches);
    JudgedFacts(b, c, matches, ev, now, k);
    WeighedFacts(b, c, matches, k);
    IndependentBound(ev, Weighed(b, c, matches).beliefs[k].sources);
  }

  // ----- What a batch has done so far -----

  /** Candidate w of the batch was merged into x, and nothing else it was matched with is alive. */
  ghost predicate Absorbed(r: Round, b: Base, w: nat, x: Id) {
    w < |r.cs| && w < |r.nears| && x in r.nears[w] && Dead(b, r.cs[w]) && OthersDead(b, r.nears[w], x)
  }

  /** Judging candidate w activated a, and nothing else it was matched with is alive. */
  ghost predicate Cleared(r: Round, b: Base, w: nat, a: Id) {
    && w < |r.cs| && w < |r.nears| && OthersDead(b, r.nears[w], a)
    && (a == r.cs[w] || (a in r.nears[w] && Dead(b, r.cs[w])))
  }

  predicate Rich(b: Base, x: Id) {
    x in b.beliefs && b.beliefs[x].status == Candidate && |b.beliefs[x].sources| >= 2
  }

  ghost predicate ActiveListed(listing: Beliefs, b: Base) {
    forall i :: IsActive(b, i) && b.beliefs[i].key.Some? ==> i in listing
  }

  /** A belief the batch made active was cleared of everything around it. */
  ghost predicate ActiveExplained(r: Round, b: Base) {
    forall a :: a in r.listing && IsActive(b, a) ==> r.listing[a].status == Active || exists w: nat :: Cleared(r, b, w, a)
  }

  /** The candidate's group is too large for its window. */
  ghost predicate Crowded(r: Round, x: nat) {
    x < |r.cs| && x < |r.nears| && exists t :: Peer(r.listing, r.cs[x], t) && t !in r.nears[x]
  }

  /** A candidate of a crowded group, still to be judged, that has gathered evidence took it from one judgement. */
  ghost predicate RichExplained(r: Round, b: Base, n: nat) {
    forall x :: n <= x < |r.cs| && Crowded(r, x) && Rich(b, r.cs[x]) ==> exists w: nat :: Absorbed(r, b, w, r.cs[x])
  }

  /** Beside an active belief no candidate of a crowded group, still to be judged, has gathered evidence. */
  ghost predicate PoorBesideActive(r: Round, b: Base, n: nat) {
    forall a, x :: n <= x < |r.cs| && Crowded(r, x) && IsActive(b, a) && Peer(r.listing, a, r.cs[x]) ==> !Rich(b, r.cs[x])
  }

  ghost predicate Halfway(r: Round, b: Base, n: nat) {
    && FactsKept(r.listing, b) && Functional(b) && ActiveListed(r.listing, b)
    && ActiveExplained(r, b) && RichExplained(r, b, n) && PoorBesideActive(r, b, n)
  }

  // ----- Windows in one group -----

  /** The active belief of a listing is the first of its group, so no window misses it. */
  lemma ListedActiveIsNear(r: Round, j: nat, a: Id)
    requires Sound(r) && j < |r.cs| && Peer(r.listing, r.cs[j], a) && r.listing[a].status == Active
    ensures a in r.nears[j]
  {
    var near := r.nears[j];
    if a !in near {
      assert FullBefore(r.listing, near, a);
      var s :| s in near;
      assert Rivals(r.listing[s], r.listing[a]);
    }
  }

  /** After a was cleared by candidate w, a living peer d of a living candidate that misses a is missed too. */
  lemma CrowdedOut(r: Round, b: Base, j: nat, w: nat, a: Id, d: Id)
    requires Sound(r) && j < |r.cs| && Cleared(r, b, w, a)
    requires Peer(r.listing, r.cs[j], a) && !Dead(b, r.cs[j]) && a !in r.nears[j]
    requires Peer(r.listing, r.cs[j], d) && !Dead(b, d) && d != a
    ensures d !in r.nears[j]
  {
    var c, wide := r.cs[j], r.nears[w];
    assert Peer(r.listing, r.cs[w], d) && d !in wide && c !in wide;
    assert FullBefore(r.listing, wide, d) && FullBefore(r.listing, r.nears[j], a);
    if a == r.cs[w] {
      NoRoom(r.listing, c, r.nears[j], wide, d);
    } else {
      assert Before(r.listing, a, d);
    }
  }

  lemma AllCrowdedOut(r: Round, b: Base, n: nat, j: nat, a: Id)
    requires Sound(r) && Halfway(r, b, n) && j < |r.cs| && IsActive(b, a)
    requires Peer(r.listing, r.cs[j], a) && !Dead(b, r.cs[j]) && a !in r.nears[j]
    ensures forall d :: d in r.nears[j] ==> Dead(b, d)
  {
    if r.listing[a].status == Active {
      ListedActiveIsNear(r, j, a);
    } else {
      var w: nat :| Cleared(r, b, w, a);
      forall d | d in r.nears[j] ensures Dead(b, d) {
        if !Dead(b, d) {
          CrowdedOut(r, b, j, w, a, d);
        }
      }
    }
  }

  /** A candidate that gathered evidence from w comes before every living peer. */
  lemma AbsorbedComesFirst(r: Round, b: Base, w: nat, x: Id, a: Id)
    requires Sound(r) && FactsKept(r.listing, b) && Absorbed(r, b, w, x) && Peer(r.listing, x, a) && !Dead(b, a)
    ensures Before(r.listing, x, a)
  {
    assert Peer(r.listing, r.cs[w], a) && a !in r.nears[w];
    assert FullBefore(r.listing, r.nears[w], a);
  }

  /**
   * Candidate n is in one group with x, a candidate still to come that gathered evidence from w.
   * When x is outside the window of n, everything inside it is dead.
   */
  lemma BesideAbsorber(r: Round, b: Base, n: nat, w: nat, x: Id)
    requires Sound(r) && FactsKept(r.listing, b) && n < |r.cs| && Absorbed(r, b, w, x)
    requires Peer(r.listing, r.cs[n], x) && !Dead(b, r.cs[n]) && !Dead(b, x) && x !in r.nears[n]
    ensures Before(r.listing, x, r.cs[n]) && forall d :: d in r.nears[n] ==> Dead(b, d)
  {
    var a := r.cs[n];
    assert Peer(r.listing, r.cs[w], a) && a !in r.nears[w];
    assert FullBefore(r.listing, r.nears[w], a) && FullBefore(r.listing, r.nears[n], x);
    forall d | d in r.nears[n] ensures Dead(b, d) {
      assert d == r.cs[w] || Peer(r.listing, r.cs[w], d);
    }
  }

  // ----- One step of the batch -----

  ghost predicate Judges(r: Round, b: Base, n: nat, matches: set<Match>, ev: Evidence, now: Time) {
    && Sound(r) && Halfway(r, b, n) && n < |r.cs| && ev.minimum >= 2
    && WellJudged(b, r.cs[n], matches, ev, now) && Seen(r.listing, b, r.cs[n], matches, r.nears[n])
  }

  /** The canonical belief is the candidate or among the peers it was matched with. */
  lemma ChosenIsNear(r: Round, b: Base, n: nat, matches: set<Match>, ev: Evidence, now: Time)
    requires Judges(r, b, n, matches, ev, now)
    ensures var c, k := r.cs[n], Chosen(b, r.cs[n], matches);
            k in r.listing && k in b.beliefs && !Dead(b, k) && (k == c || (k in r.nears[n] && Peer(r.listing, c, k)))
  {
    var c, k := r.cs[n], Chosen(b, r.cs[n], matches);
    ChosenFacts(b, c, matches);
    if k != c {
      EquivalentIsSeen(r.listing, b, c, matches, r.nears[n], k);
    }
  }

  /** Another belief that is rich afterwards was rich before, and was not among the matched peers if none conflicts. */
  lemma RichBefore(r: Round, b: Base, n: nat, matches: set<Match>, ev: Evidence, now: Time, x: Id)
    requires Judges(r, b, n, matches, ev, now) && x in b.beliefs && x != Chosen(b, r.cs[n], matches)
    requires Rich(Judge(b, r.cs[n], matches, ev, now).0, x)
    ensures Rich(b, x)
    ensures Conflicts(b, r.cs[n], Chosen(b, r.cs[n], matches), matches) == {} ==> x !in r.nears[n]
  {
    JudgedFacts(b, r.cs[n], matches, ev, now, x);
    if Conflicts(b, r.cs[n], Chosen(b, r.cs[n], matches), matches) == {} {
      MergedAway(r.listing, b, r.cs[n], matches, r.nears[n], ev, now);
    }
  }

  /** Nothing is promoted beside an active belief, nor does another candidate gather evidence. */
  lemma NothingGathersBesideActive(r: Round, b: Base, n: nat, matches: set<Match>, ev: Evidence, now: Time, a: Id)
    requires Judges(r, b, n, matches, ev, now) && IsActive(b, a) && Peer(r.listing, r.cs[n], a)
    ensures !Promotes(b, r.cs[n], matches, ev, now)
    ensures Judge(b, r.cs[n], matches, ev, now).0.beliefs.Keys == b.beliefs.Keys
    ensures var k := Chosen(b, r.cs[n], matches);
            k in b.beliefs && (k == r.cs[n] || Judge(b, r.cs[n], matches, ev, now).0.beliefs[k].status != Candidate)
  {
    var c, near := r.cs[n], r.nears[n];
    var t, k := Judge(b, c, matches, ev, now).0, Chosen(b, c, matches);
    assert Peer(r.listing, a, c);
    assert a !in near ==> Crowded(r, n) && !Rich(b, c);
    ChosenIsNear(r, b, n, matches, ev, now);
    JudgedFacts(b, c, matches, ev, now, k);
    if t.beliefs[k].status == Candidate || Promotes(b, c, matches, ev, now) {
      UndisputedMeetsNoActive(r.listing, b, c, matches, near, ev, now);
      AllCrowdedOut(r, b, n, n, a);
      JudgedAlone(r.listing, b, c, matches, near, ev, now);
      if Promotes(b, c, matches, ev, now) {
        PromotedHasTwo(b, c, matches, ev, now);
      }
    }
  }

  /** Where a belief is promoted, no candidate of its group still to come has gathered evidence. */
  lemma PoorBesidePromoted(r: Round, b: Base, n: nat, matches: set<Match>, ev: Evidence, now: Time, x: nat)
    requires Judges(r, b, n, matches, ev, now) && Promotes(b, r.cs[n], matches, ev, now) && n < x < |r.cs|
    requires Peer(r.listing, Chosen(b, r.cs[n], matches), r.cs[x]) && r.cs[x] !in r.nears[n] && Crowded(r, x)
    ensures !Rich(b, r.cs[x])
  {
    var c, k, late := r.cs[n], Chosen(b, r.cs[n], matches), r.cs[x];
    ChosenIsNear(r, b, n, matches, ev, now);
    if Rich(b, late) {
      var w: nat :| Absorbed(r, b, w, late);
      assert Peer(r.listing, c, late) && FullBefore(r.listing, r.nears[n], late) && Crowded(r, n);
      if k != c {
        assert Before(r.listing, k, late);
        AbsorbedComesFirst(r, b, w, late, k);
      } else {
        BesideAbsorber(r, b, n, w, late);
        JudgedAlone(r.listing, b, c, matches, r.nears[n], ev, now);
        PromotedHasTwo(b, c, matches, ev, now);
        UndisputedMeetsNoActive(r.listing, b, c, matches, r.nears[n], ev, now);
        assert Rich(b, c);
        var v: nat :| Absorbed(r, b, v, c);
        AbsorbedComesFirst(r, b, v, c, late);
      }
    }
  }

  // ----- Each step keeps what the batch relies on -----

  /** What any step does to the beliefs: claims stay, the dead stay dead, nothing becomes a candidate. */
  ghost predicate Settles(b: Base, t: Base) {
    && t.beliefs.Keys == b.beliefs.Keys
    && forall i :: i in b.beliefs ==>
         && SameClaim(t.beliefs[i], b.beliefs[i]) && (Dead(b, i) ==> Dead(t, i))
         && (t.beliefs[i].status == Candidate ==> b.beliefs[i].status == Candidate)
  }

  lemma JudgeSettles(b: Base, c: Id, matches: set<Match>, ev: Evidence, now: Time)
    requires WellJudged(b, c, matches, ev, now)
    ensures Settles(b, Judge(b, c, matches, ev, now).0)
  {
    ChosenFacts(b, c, matches);
    forall i | i in b.beliefs
      ensures var t := Judge(b, c, matches, ev, now).0;
              && i in t.beliefs && SameClaim(t.beliefs[i], b.beliefs[i]) && (Dead(b, i) ==> Dead(t, i))
              && (t.beliefs[i].status == Candidate ==> b.beliefs[i].status == Candidate)
    {
      JudgedFacts(b, c, matches, ev, now, i);
    }
  }

  lemma DeadStays(r: Round, b: Base, t: Base, w: nat, x: Id)
    requires Settles(b, t)
    ensures Absorbed(r, b, w, x) ==> Absorbed(r, t, w, x)
    ensures Cleared(r, b, w, x) ==> Cleared(r, t, w, x)
  {
  }

  lemma ActiveStaysExplained(r: Round, b: Base, n: nat, matches: set<Match>, ev: Evidence, now: Time)
    requires Judges(r, b, n, matches, ev, now)
    ensures var t := Judge(b, r.cs[n], matches, ev, now).0;
            ActiveListed(r.listing, t) && ActiveExplained(r, t)
  {
    var c := r.cs[n];
    var t, k := Judge(b, c, matches, ev, now).0, Chosen(b, c, matches);
    JudgeSettles(b, c, matches, ev, now);
    JudgeActivates(b, c, matches, ev, now);
    ChosenIsNear(r, b, n, matches, ev, now);
    forall a | a in r.listing && IsActive(t, a) ensures r.listing[a].status == Active || exists w: nat :: Cleared(r, t, w, a) {
      if Promotes(b, c, matches, ev, now) && a == k {
        UndisputedMeetsNoActive(r.listing, b, c, matches, r.nears[n], ev, now);
        MergedAway(r.listing, b, c, matches, r.nears[n], ev, now);
        assert Cleared(r, t, n, a);
      } else {
        assert IsActive(b, a);
        if r.listing[a].status != Active {
          var w: nat :| Cleared(r, b, w, a);
          DeadStays(r, b, t, w, a);
        }
      }
    }
  }

  lemma RichStaysExplained(r: Round, b: Base, n: nat, matches: set<Match>, ev: Evidence, now: Time)
    requires Judges(r, b, n, matches, ev, now)
    ensures RichExplained(r, Judge(b, r.cs[n], matches, ev, now).0, n + 1)
  {
    var c := r.cs[n];
    var t, k := Judge(b, c, matches, ev, now).0, Chosen(b, c, matches);
    JudgeSettles(b, c, matches, ev, now);
    ChosenIsNear(r, b, n, matches, ev, now);
    forall x | n + 1 <= x < |r.cs| && Crowded(r, x) && Rich(t, r.cs[x]) ensures exists w: nat :: Absorbed(r, t, w, r.cs[x]) {
      if r.cs[x] == k {
        UndisputedMeetsNoActive(r.listing, b, c, matches, r.nears[n], ev, now);
        MergedAway(r.listing, b, c, matches, r.nears[n], ev, now);
        assert Absorbed(r, t, n, k);
      } else {
        RichBefore(r, b, n, matches, ev, now, r.cs[x]);
        var w: nat :| Absorbed(r, b, w, r.cs[x]);
        DeadStays(r, b, t, w, r.cs[x]);
      }
    }
  }

  lemma StaysPoor(r: Round, b: Base, n: nat, matches: set<Match>, ev: Evidence, now: Time)
    requires Judges(r, b, n, matches, ev, now)
    ensures PoorBesideActive(r, Judge(b, r.cs[n], matches, ev, now).0, n + 1)
  {
    var t := Judge(b, r.cs[n], matches, ev, now).0;
    JudgeSettles(b, r.cs[n], matches, ev, now);
    forall a, x | n + 1 <= x < |r.cs| && Crowded(r, x) && IsActive(t, a) && Peer(r.listing, a, r.cs[x]) ensures !Rich(t, r.cs[x]) {
      OneStaysPoor(r, b, n, matches, ev, now, a, x);
    }
  }

  lemma OneStaysPoor(r: Round, b: Base, n: nat, matches: set<Match>, ev: Evidence, now: Time, a: Id, x: nat)
    requires Judges(r, b, n, matches, ev, now) && n < x < |r.cs| && Crowded(r, x) && Peer(r.listing, a, r.cs[x])
    requires IsActive(Judge(b, r.cs[n], matches, ev, now).0, a)
    ensures !Rich(Judge(b, r.cs[n], matches, ev, now).0, r.cs[x])
  {
    JudgeActivates(b, r.cs[n], matches, ev, now);
    if Promotes(b, r.cs[n], matches, ev, now) && a == Chosen(b, r.cs[n], matches) {
      PoorBesideNew(r, b, n, matches, ev, now, x);
    } else {
      assert IsActive(b, a);
      PoorBesideOld(r, b, n, matches, ev, now, a, x);
    }
  }

  lemma PoorBesideNew(r: Round, b: Base, n: nat, matches: set<Match>, ev: Evidence, now: Time, x: nat)
    requires Judges(r, b, n, matches, ev, now) && Promotes(b, r.cs[n], matches, ev, now) && n < x < |r.cs|
    requires Peer(r.listing, Chosen(b, r.cs[n], matches), r.cs[x]) && Crowded(r, x)
    ensures !Rich(Judge(b, r.cs[n], matches, ev, now).0, r.cs[x])
  {
    ChosenIsNear(r, b, n, matches, ev, now);
    UndisputedMeetsNoActive(r.listing, b, r.cs[n], matches, r.nears[n], ev, now);
    if Rich(Judge(b, r.cs[n], matches, ev, now).0, r.cs[x]) {
      JudgeSettles(b, r.cs[n], matches, ev, now);
      RichBefore(r, b, n, matches, ev, now, r.cs[x]);
      PoorBesidePromoted(r, b, n, matches, ev, now, x);
    }
  }

  lemma PoorBesideOld(r: Round, b: Base, n: nat, matches: set<Match>, ev: Evidence, now: Time, a: Id, x: nat)
    requires Judges(r, b, n, matches, ev, now) && IsActive(b, a) && n < x < |r.cs| && Crowded(r, x) && Peer(r.listing, a, r.cs[x])
    ensures !Rich(Judge(b, r.cs[n], matches, ev, now).0, r.cs[x])
  {
    ChosenIsNear(r, b, n, matches, ev, now);
    if r.cs[x] == Chosen(b, r.cs[n], matches) {
      assert Peer(r.listing, r.cs[n], a);
      NothingGathersBesideActive(r, b, n, matches, ev, now, a);
    } else if Rich(Judge(b, r.cs[n], matches, ev, now).0, r.cs[x]) {
      JudgeSettles(b, r.cs[n], matches, ev, now);
      RichBefore(r, b, n, matches, ev, now, r.cs[x]);
    }
  }

  lemma JudgeStaysFunctional(r: Round, b: Base, n: nat, matches: set<Match>, ev: Evidence, now: Time)
    requires Judges(r, b, n, matches, ev, now)
    ensures Functional(Govern(b, r.cs[n], matches, ev, now).0)
  {
    var c := r.cs[n];
    GovernFunctionalExactly(b, c, matches, ev, now);
    if HasActivePeer(b, c) {
      var p :| p in b.beliefs && p != c && b.beliefs[p].status == Active
               && b.beliefs[p].agent == b.beliefs[c].agent && b.beliefs[p].key == b.beliefs[c].key && b.beliefs[p].key.Some?;
      assert IsActive(b, p);
      assert Peer(r.listing, c, p);
      NothingGathersBesideActive(r, b, n, matches, ev, now, p);
    }
  }

  /** A step that makes nothing active and no candidate rich. */
  ghost predicate Quiet(b: Base, t: Base) {
    && Settles(b, t)
    && (forall i :: IsActive(t, i) ==> IsActive(b, i))
    && (forall x :: Rich(t, x) ==> Rich(b, x))
  }

  lemma QuietKeepsHalfway(r: Round, b: Base, t: Base, n: nat)
    requires Halfway(r, b, n) && Quiet(b, t)
    ensures Halfway(r, t, n + 1)
  {
    forall i | IsActive(t, i) ensures IsActive(b, i) && SameClaim(t.beliefs[i], b.beliefs[i]) {
    }
    assert Activates(b, t, {}) by {
      forall i | i in t.beliefs && t.beliefs[i].status == Active ensures IsActive(t, i) {
      }
    }
    NothingNew(b, t);
    forall a | a in r.listing && IsActive(t, a) ensures r.listing[a].status == Active || exists w: nat :: Cleared(r, t, w, a) {
      if r.listing[a].status != Active {
        var w: nat :| Cleared(r, b, w, a);
        DeadStays(r, b, t, w, a);
      }
    }
    forall x | n + 1 <= x < |r.cs| && Crowded(r, x) && Rich(t, r.cs[x]) ensures exists w: nat :: Absorbed(r, t, w, r.cs[x]) {
      var w: nat :| Absorbed(r, b, w, r.cs[x]);
      DeadStays(r, b, t, w, r.cs[x]);
    }
  }

  /** A candidate that is gone, expired or has an impossible interval. */
  lemma UnjudgedIsQuiet(b: Base, c: Id, matches: set<Match>, ev: Evidence, now: Time)
    requires !WellJudged(b, c, matches, ev, now)
    ensures Quiet(b, Govern(b, c, matches, ev, now).0)
  {
  }

  lemma StepKeepsHalfway(r: Round, b: Base, n: nat, matches: set<Match>, ev: Evidence, now: Time)
    requires Sound(r) && Halfway(r, b, n) && n < |r.cs| && ev.minimum >= 2
    requires Seen(r.listing, b, r.cs[n], matches, r.nears[n])
    ensures Halfway(r, Govern(b, r.cs[n], matches, ev, now).0, n + 1)
  {
    if WellJudged(b, r.cs[n], matches, ev, now) {
      JudgeSettles(b, r.cs[n], matches, ev, now);
      JudgeStaysFunctional(r, b, n, matches, ev, now);
      ActiveStaysExplained(r, b, n, matches, ev, now);
      RichStaysExplained(r, b, n, matches, ev, now);
      StaysPoor(r, b, n, matches, ev, now);
    } else {
      UnjudgedIsQuiet(b, r.cs[n], matches, ev, now);
      QuietKeepsHalfway(r, b, Govern(b, r.cs[n], matches, ev, now).0, n);
    }
  }
}
