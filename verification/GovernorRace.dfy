/**
 * A batch that breaks the rule. The governor waits for embeddings between taking its listing and
 * governing the candidates; a belief confirmed meanwhile is still listed as a candidate.
 */
module GovernorRace {
  import opened Wrappers
  import opened Governance
  import opened GovernanceTheorems
  import opened Governor
  import opened GovernorBatches
  import opened GovernorRuns
  import opened Ranking

  const NOBODY: Similarity := (i: Id) => None

  /** Of the beliefs 1 to 22 all but 20 and 22 say yes; 1 is the oldest and 22 the next. Each has its own source. */
  function Said(n: nat): Belief {
    Belief("agent", Some("key"), if n == 20 || n == 22 then "no" else "yes", Candidate, {EventId(n)},
           if n == 1 then 0 else if n == 22 then 1 else 2, 100, None, None, {}, false)
  }

  function Extracted(n: nat): Base {
    Base(map k: nat | 1 <= k <= n :: Id(k) := Said(k), {}, {})
  }

  const LISTING: Beliefs := Extracted(22).beliefs

  /** The events of the beliefs: the last is from a second task. */
  const TASKS: Evidence :=
    Evidence(map e | e in EVENTS :: Origin(Internal, "agent", if e == EventId(22) then "second" else "first"), 2)
  const EVENTS: set<EventId> := set k: nat | 1 <= k <= 22 :: EventId(k)

  /** The candidates, oldest first. */
  const QUEUE: seq<Id> := [Id(1), Id(22)] + seq(20, i requires 0 <= i < 20 => Id(i + 2))
  const CLOCK: seq<Time> := seq(22, i requires 0 <= i < 22 => 5)

  /** What the cap keeps for candidate 1, the beliefs 2 to 21, and for candidate 22, the beliefs 1 to 20. */
  const FIRST: seq<Match> := seq(20, i requires 0 <= i < 20 => Match(Id(i + 2), if i + 2 == 20 then Conflict else ExactDuplicate))
  const SECOND: seq<Match> := seq(20, i requires 0 <= i < 20 => Match(Id(i + 1), if i + 1 == 20 then ExactDuplicate else Conflict))

  lemma ExtractedIs(n: nat)
    ensures forall i :: i in Extracted(n).beliefs <==> 1 <= i.rank <= n
    ensures forall i :: i in Extracted(n).beliefs ==> Extracted(n).beliefs[i] == Said(i.rank)
  {
    forall i: Id | 1 <= i.rank <= n ensures i in Extracted(n).beliefs {
      assert i == Id(i.rank);
    }
  }

  lemma ExtractsNext(n: nat)
    ensures Step(Extracted(n), DoExtract(Id(n + 1), Said(n + 1), EventId(n + 1)), Extracted(n + 1))
  {
    ExtractedIs(n);
    ExtractedIs(n + 1);
    assert Extract(Extracted(n), Id(n + 1), Said(n + 1), EventId(n + 1)).beliefs == Extracted(n + 1).beliefs;
  }

  lemma Extraction()
    ensures Extracted(0) == EMPTY
            && forall n: nat :: n < 22 ==>
                 Step(Extracted(n), DoExtract(Id(n + 1), Said(n + 1), EventId(n + 1)), Extracted(n + 1))
  {
    forall n: nat | n < 22
      ensures Step(Extracted(n), DoExtract(Id(n + 1), Said(n + 1), EventId(n + 1)), Extracted(n + 1))
    {
      ExtractsNext(n);
    }
  }

  lemma ListingIsFresh()
    ensures Functional(Extracted(22)) && SingleSource(Extracted(22)) && TakenFrom(LISTING, Extracted(22))
  {
    ExtractedIs(22);
  }

  lemma InQueue(i: Id)
    requires 1 <= i.rank <= 22
    ensures |QUEUE| == 22 && i in QUEUE
  {
    if 2 <= i.rank <= 21 {
      assert QUEUE[i.rank] == i;
    } else {
      assert QUEUE[if i.rank == 1 then 0 else 1] == i;
    }
  }

  /** The places of the queue are in order of age. */
  lemma QueueSorted(i: nat, j: nat)
    requires i < j < 22
    ensures |QUEUE| == 22 && QUEUE[i] in LISTING && QUEUE[j] in LISTING
    ensures QUEUE[i] != QUEUE[j] && AgeOrder(LISTING)(QUEUE[i], QUEUE[j])
  {
    ExtractedIs(22);
  }

  lemma QueueIsOldestFirst()
    ensures |QUEUE| == 22 && Front(AgeOrder(LISTING), Ungoverned(LISTING), QUEUE, Bounded(500))
  {
    ExtractedIs(22);
    forall i, j | 0 <= i < j < |QUEUE| ensures QUEUE[i] != QUEUE[j] && AgeOrder(LISTING)(QUEUE[i], QUEUE[j]) {
      QueueSorted(i, j);
    }
    forall i: Id | i in Ungoverned(LISTING) ensures i in QUEUE {
      InQueue(i);
    }
  }

  // ----- The matches that are kept -----

  lemma ListingClassified(c: Id, p: Id)
    requires 1 <= c.rank <= 22 && 1 <= p.rank <= 22 && p != c
    ensures c in LISTING && p in LISTING
    ensures Classify(LISTING, c, p, NOBODY)
            == Some(Match(p, if Said(p.rank).value == Said(c.rank).value then ExactDuplicate else Conflict))
  {
    ExtractedIs(22);
  }

  lemma ListingOrder(x: Match, y: Match)
    requires x.kind != SemanticDuplicate && y.kind != SemanticDuplicate && x.target.rank <= y.target.rank
    ensures MatchOrder(LISTING, NOBODY)(x, y)
  {
    ExtractedIs(22);
  }

  /** The first twenty others by identifier. */
  ghost predicate FirstOthers(c: Id, matches: seq<Match>) {
    && |matches| == 20
    && (forall i :: 0 <= i < 20 ==> matches[i].target.rank == (if i + 1 < c.rank then i + 1 else i + 2))
    && forall i :: 0 <= i < 20 ==>
         matches[i].kind == if Said(matches[i].target.rank).value == Said(c.rank).value then ExactDuplicate else Conflict
  }

  lemma FirstOthersAreKept(c: Id, matches: seq<Match>)
    requires (c == Id(1) || c == Id(22)) && FirstOthers(c, matches)
    ensures c in LISTING && Kept(LISTING, c, NOBODY, matches)
  {
    ExtractedIs(22);
    var le := MatchOrder(LISTING, NOBODY);
    forall i | 0 <= i < 20 ensures matches[i] in AllMatches(LISTING, c, NOBODY) {
      ListingClassified(c, matches[i].target);
    }
    forall i, j | 0 <= i < j < 20 ensures matches[i] != matches[j] && le(matches[i], matches[j]) {
      ListingOrder(matches[i], matches[j]);
    }
    forall k | k in AllMatches(LISTING, c, NOBODY) && k !in matches ensures forall i :: 0 <= i < 20 ==> le(matches[i], k) {
      LaterThanFirst(c, matches, k);
    }
  }

  lemma IsAmongFirst(c: Id, matches: seq<Match>, k: Match)
    requires (c == Id(1) || c == Id(22)) && FirstOthers(c, matches) && k.target != c
    requires 1 <= k.target.rank <= 20 || (k.target.rank == 21 && c == Id(1))
    requires k.kind == if Said(k.target.rank).value == Said(c.rank).value then ExactDuplicate else Conflict
    ensures k in matches
  {
    var at := if k.target.rank < c.rank then k.target.rank - 1 else k.target.rank - 2;
    assert matches[at].target.rank == k.target.rank;
    assert matches[at] == k;
  }

  lemma LaterThanFirst(c: Id, matches: seq<Match>, k: Match)
    requires (c == Id(1) || c == Id(22)) && FirstOthers(c, matches)
    requires c in LISTING && k in AllMatches(LISTING, c, NOBODY) && k !in matches
    ensures forall i :: 0 <= i < 20 ==> MatchOrder(LISTING, NOBODY)(matches[i], k)
  {
    ExtractedIs(22);
    var p :| p in LISTING && Classify(LISTING, c, p, NOBODY) == Some(k);
    ListingClassified(c, p);
    if k.target.rank <= 20 || (k.target.rank == 21 && c == Id(1)) {
      IsAmongFirst(c, matches, k);
    }
    forall i | 0 <= i < 20 ensures MatchOrder(LISTING, NOBODY)(matches[i], k) {
      ListingOrder(matches[i], k);
    }
  }

  lemma KeptInRace()
    ensures Matched(LISTING, QUEUE, [FIRST, SECOND], (i: Id) => NOBODY)
  {
    QueueIsOldestFirst();
    FirstOthersAreKept(Id(1), FIRST);
    FirstOthersAreKept(Id(22), SECOND);
  }

  // ----- The race -----

  /** Belief 21 was confirmed after the listing was taken. */
  const CONFIRMED: Base := ConfirmOver(Extracted(22), Id(21))

  lemma ConfirmedIs()
    ensures ConfirmedTo(Extracted(22), Id(21), 5, CONFIRMED) && Functional(CONFIRMED)
    ensures CONFIRMED.beliefs.Keys == LISTING.Keys
    ensures forall i :: i in LISTING && i != Id(21) ==> CONFIRMED.beliefs[i] == Said(i.rank)
    ensures Id(21) in LISTING && CONFIRMED.beliefs[Id(21)] == Said(21).(status := Active, governed := true)
  {
    ExtractedIs(22);
    ListingIsFresh();
    ConfirmFunctional(Extracted(22), Id(21), 5, CONFIRMED);
  }

  lemma FirstEquivalents(b: Base, ms: set<Match>)
    requires ms == AsSet(FIRST) && (forall i :: i in b.beliefs <==> 1 <= i.rank <= 22)
    requires forall i :: i in b.beliefs ==> SameClaim(b.beliefs[i], Said(i.rank)) && Live(b.beliefs[i].status)
    ensures forall i :: i in Equivalents(b, Id(1), ms) <==> 1 <= i.rank <= 19 || i.rank == 21
  {
    var ids := Equivalents(b, Id(1), ms);
    forall i: Id | 2 <= i.rank <= 21 && i.rank != 20 ensures i in ids {
      assert FIRST[i.rank - 2] == Match(i, ExactDuplicate);
      assert Match(i, ExactDuplicate) in ms;
    }
    forall i | i in ids ensures 1 <= i.rank <= 19 || i.rank == 21 {
      if i != Id(1) {
        assert Match(i, ExactDuplicate) in FIRST;
      }
    }
  }

  lemma FirstJudges()
    ensures var ms := AsSet(FIRST);
            && Id(1) in CONFIRMED.beliefs && WellJudged(CONFIRMED, Id(1), ms, TASKS, 5)
            && (forall i :: i in Equivalents(CONFIRMED, Id(1), ms) <==> 1 <= i.rank <= 19 || i.rank == 21)
            && Chosen(CONFIRMED, Id(1), ms) == Id(21)
  {
    ConfirmedIs();
    ExtractedIs(22);
    FirstEquivalents(CONFIRMED, AsSet(FIRST));
    ChosenFacts(CONFIRMED, Id(1), AsSet(FIRST));
  }

  /** Candidate 1 and its duplicates are merged into the confirmed belief; 20 stays as a conflict, 22 was cut off. */
  ghost predicate AfterFirst(b: Base, i: Id)
    requires i in b.beliefs
  {
    && (1 <= i.rank <= 19 ==> Dead(b, i))
    && (i.rank == 21 ==> IsActive(b, i) && SameClaim(b.beliefs[i], Said(21)))
    && (i.rank == 20 || i.rank == 22 ==> AllButMarks(b.beliefs[i], Said(i.rank)))
  }

  lemma CopyMerged(b: Base, ms: set<Match>, i: Id)
    requires Id(1) in b.beliefs && WellJudged(b, Id(1), ms, TASKS, 5) && i in b.beliefs && 1 <= i.rank <= 22
    requires i in Equivalents(b, Id(1), ms) <==> 1 <= i.rank <= 19 || i.rank == 21
    requires Chosen(b, Id(1), ms) == Id(21)
    requires if i == Id(21) then IsActive(b, i) && SameClaim(b.beliefs[i], Said(21)) else b.beliefs[i] == Said(i.rank)
    ensures var t := Judge(b, Id(1), ms, TASKS, 5).0;
            t.beliefs.Keys == b.beliefs.Keys && AfterFirst(t, i)
  {
    JudgedFacts(b, Id(1), ms, TASKS, 5, i);
    if i.rank == 20 || i.rank == 22 {
      JudgedOther(b, Id(1), ms, TASKS, 5, i);
    }
  }

  lemma CopiesMerged()
    ensures var b := Govern(CONFIRMED, Id(1), AsSet(FIRST), TASKS, 5).0;
            && b.beliefs.Keys == LISTING.Keys && (forall i :: i in b.beliefs ==> AfterFirst(b, i)) && Functional(b)
  {
    var ms := AsSet(FIRST);
    ConfirmedIs();
    ExtractedIs(22);
    FirstJudges();
    forall i | i in LISTING
      ensures var b := Judge(CONFIRMED, Id(1), ms, TASKS, 5).0; b.beliefs.Keys == LISTING.Keys && AfterFirst(b, i)
    {
      CopyMerged(CONFIRMED, ms, i);
    }
    GovernFunctionalExactly(CONFIRMED, Id(1), ms, TASKS, 5);
    JudgeActivates(CONFIRMED, Id(1), ms, TASKS, 5);
  }

  /** Candidate 22 sees the dead copies and its own duplicate 20, and takes over the evidence of the second. */
  lemma DenialIsPromoted(b: Base)
    requires b.beliefs.Keys == LISTING.Keys && forall i: Id :: 1 <= i.rank <= 19 ==> Dead(b, i)
    requires Id(20) in b.beliefs && AllButMarks(b.beliefs[Id(20)], Said(20))
    requires Id(22) in b.beliefs && AllButMarks(b.beliefs[Id(22)], Said(22))
    ensures Promotes(b, Id(22), AsSet(SECOND), TASKS, 5)
  {
    var ms := AsSet(SECOND);
    DenialIsChosen(b, ms);
    SecondMeetsNoConflict(b);
    TwoTasks(b, Equivalents(b, Id(22), ms));
    DenialWeighed(b, ms);
  }

  lemma DenialIsChosen(b: Base, ms: set<Match>)
    requires ms == AsSet(SECOND) && Id(20) in b.beliefs && Id(22) in b.beliefs
    requires AllButMarks(b.beliefs[Id(20)], Said(20)) && AllButMarks(b.beliefs[Id(22)], Said(22))
    ensures Equivalents(b, Id(22), ms) == {Id(20), Id(22)} && Chosen(b, Id(22), ms) == Id(22)
  {
    SecondEquivalents(b, ms);
    assert NotAfter(b.beliefs, Chosen(b, Id(22), ms), Id(22));
  }

  lemma DenialWeighed(b: Base, ms: set<Match>)
    requires Id(22) in b.beliefs && AllButMarks(b.beliefs[Id(22)], Said(22))
    requires Chosen(b, Id(22), ms) == Id(22) && Conflicts(b, Id(22), Id(22), ms) == {}
    ensures Id(22) in Weighed(b, Id(22), ms).beliefs
    ensures var m := Weighed(b, Id(22), ms).beliefs[Id(22)];
            && m.status == Candidate && m.trust >= 100 && m.validFrom == None
            && m.sources == AllSources(b.beliefs, Equivalents(b, Id(22), ms))
  {
    var ids := Equivalents(b, Id(22), ms);
    assert IsMaxTrust(b.beliefs, ids, MaxTrust(b.beliefs, ids));
    WeighedFacts(b, Id(22), ms, Id(22));
  }

  lemma SecondEquivalents(b: Base, ms: set<Match>)
    requires ms == AsSet(SECOND) && Id(20) in b.beliefs && Id(22) in b.beliefs
    requires AllButMarks(b.beliefs[Id(20)], Said(20)) && AllButMarks(b.beliefs[Id(22)], Said(22))
    ensures Equivalents(b, Id(22), ms) == {Id(20), Id(22)}
  {
    assert SECOND[19] == Match(Id(20), ExactDuplicate) && Match(Id(20), ExactDuplicate) in ms;
    forall i | i in Equivalents(b, Id(22), ms) ensures i == Id(20) || i == Id(22) {
      if i != Id(22) {
        assert Match(i, ExactDuplicate) in SECOND;
      }
    }
  }

  lemma SecondMeetsNoConflict(b: Base)
    requires b.beliefs.Keys == LISTING.Keys && forall i: Id :: 1 <= i.rank <= 19 ==> Dead(b, i)
    requires Id(22) in b.beliefs
    ensures Conflicts(b, Id(22), Id(22), AsSet(SECOND)) == {}
  {
    forall m | m in AsSet(SECOND) && m.kind == Conflict ensures !Usable(b, Id(22), m.target) {
      assert Dead(b, m.target);
    }
  }

  lemma TwoTasks(b: Base, ids: set<Id>)
    requires ids == {Id(20), Id(22)} && ids <= b.beliefs.Keys
    requires b.beliefs[Id(20)].sources == {EventId(20)} && b.beliefs[Id(22)].sources == {EventId(22)}
    ensures Independent(TASKS, AllSources(b.beliefs, ids)) == 2 && OnlyInternal(TASKS, AllSources(b.beliefs, ids))
  {
    var s := AllSources(b.beliefs, ids);
    assert EventId(20) in s && EventId(22) in s;
    assert s == {EventId(20), EventId(22)};
    assert EventId(20) in TASKS.events && EventId(22) in TASKS.events;
    assert TASKS.events[EventId(20)] == Origin(Internal, "agent", "first");
    assert TASKS.events[EventId(22)] == Origin(Internal, "agent", "second");
    assert Origins(TASKS, s) == {Origin(Internal, "agent", "first"), Origin(Internal, "agent", "second")};
    assert "first"[0] != "second"[0];
  }

  /**
   * From the empty base to two active beliefs about one key: 22 extractions, a listing, the
   * confirmation of 21, and a batch on that listing that goes on to activate 22.
   */
  lemma RaceBreaksTheRule()
    ensures Extracted(0) == EMPTY
            && forall n: nat :: n < 22 ==>
                 Step(Extracted(n), DoExtract(Id(n + 1), Said(n + 1), EventId(n + 1)), Extracted(n + 1))
    ensures TakenFrom(LISTING, Extracted(22)) && SingleSource(Extracted(22))
    ensures |QUEUE| == 22 && Front(AgeOrder(LISTING), Ungoverned(LISTING), QUEUE, Bounded(500))
            && Matched(LISTING, QUEUE, [FIRST, SECOND], (i: Id) => NOBODY)
    ensures ConfirmedTo(Extracted(22), Id(21), 5, CONFIRMED) && Functional(CONFIRMED)
    ensures !Functional(After(CONFIRMED, QUEUE, [FIRST, SECOND], TASKS, CLOCK, 2))
  {
    Extraction();
    ListingIsFresh();
    QueueIsOldestFirst();
    KeptInRace();
    ConfirmedIs();
    SecondBreaks();
    AfterTwo(CONFIRMED, QUEUE, [FIRST, SECOND], TASKS, CLOCK);
  }

  lemma AfterTwo(b: Base, cs: seq<Id>, found: seq<seq<Match>>, ev: Evidence, nows: seq<Time>)
    requires |cs| >= 2 && |found| >= 2 && |nows| >= 2
    ensures After(b, cs, found, ev, nows, 2)
            == Govern(Govern(b, cs[0], AsSet(found[0]), ev, nows[0]).0, cs[1], AsSet(found[1]), ev, nows[1]).0
  {
    assert After(b, cs, found, ev, nows, 1) == Govern(b, cs[0], AsSet(found[0]), ev, nows[0]).0;
  }

  lemma SecondBreaks()
    ensures !Functional(Govern(Govern(CONFIRMED, Id(1), AsSet(FIRST), TASKS, 5).0, Id(22), AsSet(SECOND), TASKS, 5).0)
  {
    ExtractedIs(22);
    CopiesMerged();
    SecondBreaksAfter(Govern(CONFIRMED, Id(1), AsSet(FIRST), TASKS, 5).0);
  }

  lemma SecondBreaksAfter(b: Base)
    requires b.beliefs.Keys == LISTING.Keys && Functional(b)
    requires forall i :: i in b.beliefs ==> 1 <= i.rank <= 22 && AfterFirst(b, i)
    requires forall i: Id :: 1 <= i.rank <= 22 ==> i in b.beliefs
    ensures !Functional(Govern(b, Id(22), AsSet(SECOND), TASKS, 5).0)
  {
    DenialIsPromoted(b);
    assert HasActivePeer(b, Id(22)) by {
      assert Id(21) in b.beliefs && b.beliefs[Id(21)].key.Some?;
    }
    GovernFunctionalExactly(b, Id(22), AsSet(SECOND), TASKS, 5);
  }
}
