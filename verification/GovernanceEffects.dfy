/**
 * What each operation on the belief base does to each belief, and exactly when the governor
 * activates one (src/memory/memory-repository.ts).
 */
module GovernanceEffects {
  import opened Wrappers
  import opened Governance
  import opened GovernanceTheorems

  // ----- Who takes part in a judgement -----

  /** Another belief of the same agent that is not dead. */
  ghost predicate Open(b: Base, c: Id, t: Id)
    requires c in b.beliefs
  {
    && t in b.beliefs && t != c && b.beliefs[t].agent == b.beliefs[c].agent
    && b.beliefs[t].status in {Candidate, Active, Disputed}
  }

  /** The candidate and the open beliefs it was matched with that state the same fact. */
  ghost predicate InGroup(b: Base, c: Id, matches: set<Match>, t: Id)
    requires c in b.beliefs
  {
    t == c || (Open(b, c, t) && Match(t, ExactDuplicate) in matches
               && b.beliefs[t].key == b.beliefs[c].key && b.beliefs[t].value == b.beliefs[c].value)
  }

  /** An open belief it was matched with that states something else about the same key. */
  ghost predicate Contrary(b: Base, c: Id, matches: set<Match>, t: Id)
    requires c in b.beliefs
  {
    && Open(b, c, t) && Match(t, Conflict) in matches
    && b.beliefs[t].key == b.beliefs[c].key && b.beliefs[t].value != b.beliefs[c].value
  }

  /** Active before the others, then the older, then by identifier. */
  ghost predicate Precedes(x: Belief, i: Id, y: Belief, j: Id) {
    if x.status == Active && y.status != Active then true
    else if x.status != Active && y.status == Active then false
    else x.createdAt < y.createdAt || (x.createdAt == y.createdAt && i.rank <= j.rank)
  }

  /** The one of the group that the others are merged into. */
  ghost predicate LeadsGroup(b: Base, c: Id, matches: set<Match>, k: Id)
    requires c in b.beliefs
  {
    && k in b.beliefs && InGroup(b, c, matches, k)
    && forall j :: j in b.beliefs && InGroup(b, c, matches, j) ==> Precedes(b.beliefs[k], k, b.beliefs[j], j)
  }

  /** The evidence of the whole group. */
  ghost function GroupSources(b: Base, c: Id, matches: set<Match>): set<EventId>
    requires c in b.beliefs
  {
    set i, e | i in b.beliefs && InGroup(b, c, matches, i) && e in b.beliefs[i].sources :: e
  }

  /** A candidate whose interval is possible and not over. */
  ghost predicate Timely(b: Base, c: Id, now: Time) {
    && c in b.beliefs && b.beliefs[c].status == Candidate
    && (b.beliefs[c].validFrom.Some? && b.beliefs[c].validTo.Some? ==> b.beliefs[c].validFrom.value < b.beliefs[c].validTo.value)
    && (b.beliefs[c].validTo.Some? ==> now < b.beliefs[c].validTo.value)
  }

  /** Known events, all internal, from enough different origins; events that are all unknown count as one. */
  ghost predicate WellFounded(ev: Evidence, sources: set<EventId>) {
    && sources != {}
    && (forall e :: e in sources && e in ev.events ==> ev.events[e].source == Internal)
    && var origins := set e | e in sources && e in ev.events :: ev.events[e];
       ev.minimum <= 1 || ev.minimum <= |origins|
  }

  lemma SameGroup(b: Base, c: Id, matches: set<Match>, i: Id)
    requires c in b.beliefs
    ensures i in Equivalents(b, c, matches) <==> InGroup(b, c, matches, i)
  {
    if InGroup(b, c, matches, i) && i != c {
      assert Usable(b, c, Match(i, ExactDuplicate).target);
    }
  }

  lemma SameContrary(b: Base, c: Id, matches: set<Match>, k: Id, i: Id)
    requires c in b.beliefs && k in b.beliefs && b.beliefs[k].key == b.beliefs[c].key && b.beliefs[k].value == b.beliefs[c].value
    ensures i in Conflicts(b, c, k, matches) <==> Contrary(b, c, matches, i)
  {
    if Contrary(b, c, matches, i) {
      assert Usable(b, c, Match(i, Conflict).target);
    }
  }

  lemma SameLeader(b: Base, c: Id, matches: set<Match>, k: Id)
    requires c in b.beliefs && b.beliefs[c].status == Candidate
    ensures k == Chosen(b, c, matches) <==> LeadsGroup(b, c, matches, k)
  {
    var lead := Chosen(b, c, matches);
    forall i ensures i in Equivalents(b, c, matches) <==> InGroup(b, c, matches, i) {
      SameGroup(b, c, matches, i);
    }
    if LeadsGroup(b, c, matches, k) {
      assert NotAfter(b.beliefs, lead, k) && Precedes(b.beliefs[k], k, b.beliefs[lead], lead);
    } else if k == lead {
      forall j | j in b.beliefs && InGroup(b, c, matches, j) ensures Precedes(b.beliefs[k], k, b.beliefs[j], j) {
        assert NotAfter(b.beliefs, k, j);
      }
    }
  }

  lemma SameSources(b: Base, c: Id, matches: set<Match>)
    requires c in b.beliefs
    ensures AllSources(b.beliefs, Equivalents(b, c, matches)) == GroupSources(b, c, matches)
  {
    forall i ensures i in Equivalents(b, c, matches) <==> InGroup(b, c, matches, i) {
      SameGroup(b, c, matches, i);
    }
  }

  lemma FoundedMeans(ev: Evidence, sources: set<EventId>)
    ensures Independent(ev, sources) >= AtLeastOne(ev.minimum) && OnlyInternal(ev, sources) <==> WellFounded(ev, sources)
  {
    assert Origins(ev, sources) == set e | e in sources && e in ev.events :: ev.events[e];
    forall e | e in sources && e in ev.events ensures ev.events[e] in Origins(ev, sources) {
    }
    if Origins(ev, sources) == {} {
      assert |Origins(ev, sources)| == 0;
    } else {
      var o :| o in Origins(ev, sources);
      assert |Origins(ev, sources)| >= 1 by {
        assert Origins(ev, sources) == (Origins(ev, sources) - {o}) + {o};
      }
    }
  }

  // ----- When a belief is activated -----

  /** The canonical candidate of a timely judgement, well founded, trusted, begun and not contradicted. */
  ghost predicate AutoActivates(b: Base, c: Id, matches: set<Match>, ev: Evidence, now: Time, k: Id) {
    && Timely(b, c, now) && LeadsGroup(b, c, matches, k) && b.beliefs[k].status == Candidate
    && (forall t :: t in b.beliefs ==> !Contrary(b, c, matches, t))
    && WellFounded(ev, GroupSources(b, c, matches))
    && (exists i :: i in b.beliefs && InGroup(b, c, matches, i) && b.beliefs[i].trust >= 80)
    && (b.beliefs[k].validFrom.Some? ==> b.beliefs[k].validFrom.value <= now)
  }

  lemma GroupTrust(b: Base, c: Id, matches: set<Match>, least: int)
    requires c in b.beliefs
    ensures MaxTrust(b.beliefs, Equivalents(b, c, matches)) >= least <==>
              exists i :: i in b.beliefs && InGroup(b, c, matches, i) && b.beliefs[i].trust >= least
  {
    var ids := Equivalents(b, c, matches);
    forall i ensures i in ids <==> InGroup(b, c, matches, i) {
      SameGroup(b, c, matches, i);
    }
    var best := MaxTrust(b.beliefs, ids);
    assert IsMaxTrust(b.beliefs, ids, best);
    var j :| j in ids && b.beliefs[j].trust == best;
    assert InGroup(b, c, matches, j);
  }

  /** The canonical belief just before the decision. */
  lemma WeighedLeader(b: Base, c: Id, matches: set<Match>)
    requires c in b.beliefs && b.beliefs[c].status == Candidate
    ensures var k := Chosen(b, c, matches);
            && k in b.beliefs && k in Weighed(b, c, matches).beliefs
            && var m := Weighed(b, c, matches).beliefs[k];
               && m.validFrom == b.beliefs[k].validFrom && m.sources == GroupSources(b, c, matches)
               && m.trust == MaxTrust(b.beliefs, Equivalents(b, c, matches))
               && m.status == (if Conflicts(b, c, k, matches) != {} && b.beliefs[k].status != Active then Disputed else b.beliefs[k].status)
  {
    var ids, k := Equivalents(b, c, matches), Chosen(b, c, matches);
    ChosenFacts(b, c, matches);
    WeighedFacts(b, c, matches, k);
    SameSources(b, c, matches);
    assert IsMaxTrust(b.beliefs, ids, MaxTrust(b.beliefs, ids));
  }

  lemma PromotesExactly(b: Base, c: Id, matches: set<Match>, ev: Evidence, now: Time)
    ensures Promotes(b, c, matches, ev, now) <==> WellJudged(b, c, matches, ev, now) && AutoActivates(b, c, matches, ev, now, Chosen(b, c, matches))
  {
    if WellJudged(b, c, matches, ev, now) {
      var k := Chosen(b, c, matches);
      ChosenFacts(b, c, matches);
      WeighedLeader(b, c, matches);
      SameLeader(b, c, matches, k);
      FoundedMeans(ev, GroupSources(b, c, matches));
      GroupTrust(b, c, matches, 80);
      forall i ensures i in Conflicts(b, c, k, matches) <==> Contrary(b, c, matches, i) {
        SameContrary(b, c, matches, k, i);
      }
    }
  }

  /** Main result: governing a candidate makes a belief active exactly under these conditions. */
  lemma ActivatesExactly(b: Base, c: Id, matches: set<Match>, ev: Evidence, now: Time, k: Id)
    ensures var t := Govern(b, c, matches, ev, now).0;
            && t.beliefs.Keys == b.beliefs.Keys
            && (k in b.beliefs && b.beliefs[k].status != Active && t.beliefs[k].status == Active <==> AutoActivates(b, c, matches, ev, now, k))
  {
    PromotesExactly(b, c, matches, ev, now);
    if WellJudged(b, c, matches, ev, now) {
      ChosenFacts(b, c, matches);
      SameLeader(b, c, matches, k);
      if k in b.beliefs {
        JudgedFacts(b, c, matches, ev, now, k);
      }
      JudgedFacts(b, c, matches, ev, now, c);
    }
  }

  // ----- What governing does to every belief -----

  /** A candidate that is not timely is disputed when its interval is impossible, otherwise superseded. */
  lemma UntimelyDoes(b: Base, c: Id, matches: set<Match>, ev: Evidence, now: Time)
    requires !Timely(b, c, now)
    ensures var (t, action) := Govern(b, c, matches, ev, now);
            if c !in b.beliefs || b.beliefs[c].status != Candidate then t == b && action == Absent
            else if b.beliefs[c].validFrom.Some? && b.beliefs[c].validTo.Some? && b.beliefs[c].validTo.value <= b.beliefs[c].validFrom.value
            then t == b.(beliefs := b.beliefs[c := b.beliefs[c].(status := Disputed, governed := true)]) && action == WasInvalid
            else t == b.(beliefs := b.beliefs[c := b.beliefs[c].(status := Superseded, governed := true)]) && action == WentStale
  {
  }

  /** The highest trust of the group. */
  ghost predicate BestTrust(b: Base, c: Id, matches: set<Match>, trust: int)
    requires c in b.beliefs
  {
    && (exists i :: i in b.beliefs && InGroup(b, c, matches, i) && b.beliefs[i].trust == trust)
    && forall i :: i in b.beliefs && InGroup(b, c, matches, i) ==> b.beliefs[i].trust <= trust
  }

  ghost function AllContrary(b: Base, c: Id, matches: set<Match>): set<Id>
    requires c in b.beliefs
  {
    set i | i in b.beliefs && Contrary(b, c, matches, i)
  }

  /** What becomes of belief i when the group of c is merged into k. */
  ghost predicate GovernedTo(b: Base, c: Id, matches: set<Match>, ev: Evidence, now: Time, k: Id, i: Id, x: Belief, y: Belief)
    requires c in b.beliefs && k in b.beliefs
  {
    if i == k then
      && BestTrust(b, c, matches, y.trust)
      && y == x.(sources := GroupSources(b, c, matches), trust := y.trust, governed := true,
                 contradictions := x.contradictions + AllContrary(b, c, matches),
                 status := if AutoActivates(b, c, matches, ev, now, k) then Active
                           else if AllContrary(b, c, matches) != {} && x.status != Active then Disputed else x.status)
    else if InGroup(b, c, matches, i) then y == x.(status := Superseded, governed := true)
    else if Contrary(b, c, matches, i) then y == x.(contradictions := x.contradictions + {k}, governed := true)
    else y == x
  }

  lemma SameContraries(b: Base, c: Id, matches: set<Match>, k: Id)
    requires c in b.beliefs && b.beliefs[c].status == Candidate && k == Chosen(b, c, matches)
    ensures k in b.beliefs && Conflicts(b, c, k, matches) == AllContrary(b, c, matches)
    ensures forall i :: Contrary(b, c, matches, i) ==> i != k && !InGroup(b, c, matches, i)
  {
    ChosenFacts(b, c, matches);
    forall i ensures i in Conflicts(b, c, k, matches) <==> i in AllContrary(b, c, matches) {
      SameContrary(b, c, matches, k, i);
    }
    SameLeader(b, c, matches, k);
  }

  lemma LeaderIsGoverned(b: Base, c: Id, matches: set<Match>, ev: Evidence, now: Time)
    requires WellJudged(b, c, matches, ev, now)
    ensures var t, k := Judge(b, c, matches, ev, now).0, Chosen(b, c, matches);
            k in b.beliefs && k in t.beliefs && GovernedTo(b, c, matches, ev, now, k, k, b.beliefs[k], t.beliefs[k])
  {
    var ids, k := Equivalents(b, c, matches), Chosen(b, c, matches);
    SameContraries(b, c, matches, k);
    SameSources(b, c, matches);
    PromotesExactly(b, c, matches, ev, now);
    LeaderTrust(b, c, matches);
    LeaderFields(b, c, matches, ev, now);
  }

  lemma LeaderTrust(b: Base, c: Id, matches: set<Match>)
    requires c in b.beliefs
    ensures BestTrust(b, c, matches, MaxTrust(b.beliefs, Equivalents(b, c, matches)))
  {
    var ids := Equivalents(b, c, matches);
    forall i ensures i in ids <==> InGroup(b, c, matches, i) {
      SameGroup(b, c, matches, i);
    }
    assert IsMaxTrust(b.beliefs, ids, MaxTrust(b.beliefs, ids));
  }

  lemma LeaderFields(b: Base, c: Id, matches: set<Match>, ev: Evidence, now: Time)
    requires WellJudged(b, c, matches, ev, now)
    ensures var t, ids, k := Judge(b, c, matches, ev, now).0, Equivalents(b, c, matches), Chosen(b, c, matches);
            var conflicts := Conflicts(b, c, k, matches);
            && k in b.beliefs && k in t.beliefs
            && t.beliefs[k] == b.beliefs[k].(
                 sources := AllSources(b.beliefs, ids), trust := MaxTrust(b.beliefs, ids), governed := true,
                 contradictions := b.beliefs[k].contradictions + conflicts,
                 status := if Promotes(b, c, matches, ev, now) then Active
                           else if conflicts != {} && b.beliefs[k].status != Active then Disputed else b.beliefs[k].status)
  {
    var ids, k := Equivalents(b, c, matches), Chosen(b, c, matches);
    ChosenFacts(b, c, matches);
    MergedLeader(b, ids, k);
  }

  lemma MergedLeader(b: Base, ids: set<Id>, k: Id)
    requires ids <= b.beliefs.Keys && k in ids
    ensures k in Merged(b, ids, k).beliefs
    ensures Merged(b, ids, k).beliefs[k].(governed := true)
            == b.beliefs[k].(sources := AllSources(b.beliefs, ids), trust := MaxTrust(b.beliefs, ids), governed := true)
  {
    assert IsMaxTrust(b.beliefs, ids, MaxTrust(b.beliefs, ids));
    if ids == {k} {
      assert AllSources(b.beliefs, ids) == b.beliefs[k].sources;
    }
  }

  lemma OtherFields(b: Base, c: Id, matches: set<Match>, ev: Evidence, now: Time, i: Id)
    requires WellJudged(b, c, matches, ev, now) && i in b.beliefs && i != Chosen(b, c, matches)
    requires i in Equivalents(b, c, matches) ==> Chosen(b, c, matches) in b.beliefs && i !in Conflicts(b, c, Chosen(b, c, matches), matches)
    ensures var t, k := Judge(b, c, matches, ev, now).0, Chosen(b, c, matches);
            && i in t.beliefs && k in b.beliefs
            && t.beliefs[i] == if i in Equivalents(b, c, matches) then b.beliefs[i].(status := Superseded, governed := true)
                               else if i in Conflicts(b, c, k, matches)
                               then b.beliefs[i].(contradictions := b.beliefs[i].contradictions + {k}, governed := true)
                               else b.beliefs[i]
  {
    ChosenFacts(b, c, matches);
  }

  /** Every belief, when a timely candidate is judged. */
  lemma GovernDoes(b: Base, c: Id, matches: set<Match>, ev: Evidence, now: Time, i: Id)
    requires Timely(b, c, now) && i in b.beliefs
    ensures var t, k := Govern(b, c, matches, ev, now).0, Chosen(b, c, matches);
            && LeadsGroup(b, c, matches, k) && t.beliefs.Keys == b.beliefs.Keys
            && GovernedTo(b, c, matches, ev, now, k, i, b.beliefs[i], t.beliefs[i])
  {
    var k := Chosen(b, c, matches);
    SameLeader(b, c, matches, k);
    SameContraries(b, c, matches, k);
    JudgedFacts(b, c, matches, ev, now, i);
    if i == k {
      LeaderIsGoverned(b, c, matches, ev, now);
    } else {
      SameGroup(b, c, matches, i);
      SameContrary(b, c, matches, k, i);
      OtherFields(b, c, matches, ev, now, i);
    }
  }

  /** The relations: the group points at its leader, and both sides of each contradiction at the other. */
  lemma GovernRelates(b: Base, c: Id, matches: set<Match>, ev: Evidence, now: Time, k: Id)
    requires Timely(b, c, now) && LeadsGroup(b, c, matches, k)
    ensures var t := Govern(b, c, matches, ev, now).0;
            && (forall i, j :: (i, j) in t.verifiedBy <==>
                  (i, j) in b.verifiedBy || (j == k && i != k && i in b.beliefs && InGroup(b, c, matches, i)))
            && (forall i, j :: (i, j) in t.contradicts <==>
                  (i, j) in b.contradicts || (i == k && j in AllContrary(b, c, matches)) || (j == k && i in AllContrary(b, c, matches)))
  {
    SameLeader(b, c, matches, k);
    SameContraries(b, c, matches, k);
    var ids := Equivalents(b, c, matches);
    forall i ensures i in ids <==> InGroup(b, c, matches, i) {
      SameGroup(b, c, matches, i);
    }
    ChosenFacts(b, c, matches);
    MergedEdges(b, ids, k);
    WeighedFacts(b, c, matches, k);
  }

  /** What the governor answers. */
  lemma GovernAnswers(b: Base, c: Id, matches: set<Match>, ev: Evidence, now: Time, k: Id)
    requires Timely(b, c, now) && LeadsGroup(b, c, matches, k)
    ensures var action := Govern(b, c, matches, ev, now).1;
            var alone := forall i :: i in b.beliefs && InGroup(b, c, matches, i) ==> i == k;
            && (action == Activated <==> k == c && AutoActivates(b, c, matches, ev, now, k))
            && (action == WasDisputed <==> k == c && AllContrary(b, c, matches) != {})
            && (action == Retained <==> alone && AllContrary(b, c, matches) == {} && !AutoActivates(b, c, matches, ev, now, k))
            && action in {Activated, WasDisputed, Retained, MergedInto}
  {
    SameLeader(b, c, matches, k);
    SameContraries(b, c, matches, k);
    PromotesExactly(b, c, matches, ev, now);
    forall i ensures i in Equivalents(b, c, matches) <==> InGroup(b, c, matches, i) {
      SameGroup(b, c, matches, i);
    }
    if forall i :: i in b.beliefs && InGroup(b, c, matches, i) ==> i == k {
      assert Equivalents(b, c, matches) == {k};
    }
  }

  // ----- The other operations -----

  /** An active belief of the same agent that states the same. */
  ghost predicate Twin(b: Base, c: Id, p: Id)
    requires c in b.beliefs
  {
    && p in b.beliefs && p != c && b.beliefs[p].agent == b.beliefs[c].agent && b.beliefs[p].status == Active
    && b.beliefs[p].key == b.beliefs[c].key && b.beliefs[p].value == b.beliefs[c].value
  }

  /** An active belief of the same agent that states something else about the same key. */
  ghost predicate Opponent(b: Base, c: Id, p: Id)
    requires c in b.beliefs
  {
    && p in b.beliefs && p != c && b.beliefs[p].agent == b.beliefs[c].agent && b.beliefs[p].status == Active
    && b.beliefs[p].key == b.beliefs[c].key && b.beliefs[p].value != b.beliefs[c].value
  }

  /** A candidate or disputed belief whose interval is possible and not over. */
  ghost predicate Confirmable(b: Base, c: Id, now: Time) {
    && c in b.beliefs && (b.beliefs[c].status == Candidate || b.beliefs[c].status == Disputed)
    && (b.beliefs[c].validFrom.Some? && b.beliefs[c].validTo.Some? ==> b.beliefs[c].validFrom.value < b.beliefs[c].validTo.value)
    && (b.beliefs[c].validTo.Some? ==> now < b.beliefs[c].validTo.value)
  }

  /** Confirming merges the belief into a twin, or else makes it active in place of its opponents. */
  lemma ConfirmDoes(b: Base, c: Id, now: Time, t: Base)
    requires ConfirmedTo(b, c, now, t)
    ensures !Confirmable(b, c, now) ==> t == b
    ensures Confirmable(b, c, now) && (exists p :: Twin(b, c, p)) ==>
              exists p :: && Twin(b, c, p) && t.verifiedBy == b.verifiedBy + {(c, p)} && t.contradicts == b.contradicts
                          && t.beliefs == b.beliefs[p := b.beliefs[p].(sources := b.beliefs[p].sources + b.beliefs[c].sources, governed := true)]
                                                   [c := b.beliefs[c].(status := Superseded, governed := true)]
    ensures Confirmable(b, c, now) && (forall p :: !Twin(b, c, p)) ==>
              && t.beliefs.Keys == b.beliefs.Keys && t.verifiedBy == b.verifiedBy && t.contradicts == b.contradicts
              && forall i :: i in b.beliefs ==>
                   t.beliefs[i] == if i == c then b.beliefs[i].(status := Active, contradictions := {}, governed := true)
                                   else if Opponent(b, c, i) then b.beliefs[i].(status := Superseded) else b.beliefs[i]
  {
    if Confirmable(b, c, now) {
      assert forall p :: Twin(b, c, p) <==> p in SamePeers(b, c);
      assert forall p :: Opponent(b, c, p) <==> p in OtherPeers(b, c);
      if SamePeers(b, c) != {} {
        var p :| p in SamePeers(b, c) && t == ConfirmInto(b, c, p);
        assert Twin(b, c, p);
      }
    }
  }

  /** Edits are for beliefs that are not settled; they start over with the governor. */
  lemma EditDoes(b: Base, c: Id, key: string, value: string)
    ensures Edit(b, c, key, value) ==
            if c in b.beliefs && b.beliefs[c].status in {Candidate, Disputed}
            then b.(beliefs := b.beliefs[c := b.beliefs[c].(key := Some(key), value := value, governed := false)]) else b
  {
  }

  /** Forgetting a belief takes it out of the contradictions of those it is related to. */
  lemma ForgetDoes(b: Base, i: Id, j: Id)
    requires j in b.beliefs
    ensures var t := Forget(b, i);
            && t.beliefs.Keys == b.beliefs.Keys && t.verifiedBy == b.verifiedBy && t.contradicts == b.contradicts
            && t.beliefs[j].status == (if j == i then Forgotten else b.beliefs[j].status)
            && (forall x :: x in t.beliefs[j].contradictions <==>
                  x in b.beliefs[j].contradictions && !(x == i && i in b.beliefs && ((i, j) in b.contradicts || (j, i) in b.contradicts)))
            && t.beliefs[j] == b.beliefs[j].(status := t.beliefs[j].status, contradictions := t.beliefs[j].contradictions)
  {
  }

  /** Retention supersedes what is active, and lapses what is still a candidate. */
  lemma RetentionDoes(b: Base, ids: set<Id>, i: Id)
    requires i in b.beliefs
    ensures Retire(b, ids).beliefs.Keys == b.beliefs.Keys && Lapse(b, ids).beliefs.Keys == b.beliefs.Keys
    ensures Retire(b, ids).beliefs[i] ==
            (if i in ids && b.beliefs[i].status == Active then b.beliefs[i].(status := Superseded) else b.beliefs[i])
    ensures Lapse(b, ids).beliefs[i] ==
            (if i in ids && b.beliefs[i].status == Candidate then b.beliefs[i].(status := Forgotten, governed := false) else b.beliefs[i])
    ensures Retire(b, ids).verifiedBy == Lapse(b, ids).verifiedBy == b.verifiedBy
    ensures Retire(b, ids).contradicts == Lapse(b, ids).contradicts == b.contradicts
  {
  }

  /** An extracted belief is a candidate with one source, whatever it came with. */
  lemma ExtractDoes(b: Base, i: Id, m: Belief, event: EventId)
    ensures i in b.beliefs ==> Extract(b, i, m, event) == b
    ensures i !in b.beliefs ==>
              Extract(b, i, m, event) == b.(beliefs := b.beliefs[i := m.(status := Candidate, sources := {event}, contradictions := {}, governed := false)])
  {
  }
}
