/** What every run of the belief base keeps: one active belief per key, and no evidence lost by merging. */
module GovernanceTheorems {
  import opened Wrappers
  import opened Governance
  import opened Graphs

  // ----- Merging -----

  /** A merged belief points at one other, is dead, and its evidence is part of the other's. */
  ghost predicate EdgeKept(b: Base, d: Id, c: Id) {
    && d in b.beliefs && c in b.beliefs && !Live(b.beliefs[d].status) && b.beliefs[d].sources <= b.beliefs[c].sources
  }

  ghost predicate Forest(b: Base) {
    && (forall d, c :: (d, c) in b.verifiedBy ==> EdgeKept(b, d, c))
    && (forall d, c, e :: (d, c) in b.verifiedBy && (d, e) in b.verifiedBy ==> c == e)
    && Acyclic(b.verifiedBy)
  }

  /** The dead stay dead with the evidence they had; evidence of the living only grows; ds are merged into k. */
  ghost predicate Shift(b: Base, t: Base, ds: set<Id>, k: Id) {
    && (forall i :: i in b.beliefs ==> BeliefShifts(b, t, i))
    && (forall i :: i in ds ==> MergesInto(b, t, i, k))
    && t.verifiedBy == b.verifiedBy + set i | i in ds :: (i, k)
  }

  ghost predicate BeliefShifts(b: Base, t: Base, i: Id)
    requires i in b.beliefs
  {
    && i in t.beliefs && b.beliefs[i].sources <= t.beliefs[i].sources
    && (!Live(b.beliefs[i].status) ==> !Live(t.beliefs[i].status) && t.beliefs[i].sources == b.beliefs[i].sources)
  }

  ghost predicate MergesInto(b: Base, t: Base, i: Id, k: Id) {
    && i in b.beliefs && Live(b.beliefs[i].status) && i in t.beliefs && !Live(t.beliefs[i].status) && i != k
    && k in b.beliefs && Live(b.beliefs[k].status) && k in t.beliefs && t.beliefs[i].sources <= t.beliefs[k].sources
    && t.beliefs[i].sources == b.beliefs[i].sources
  }

  lemma ShiftKeepsForest(b: Base, t: Base, ds: set<Id>, k: Id)
    requires Forest(b) && Shift(b, t, ds, k)
    ensures Forest(t)
  {
    forall d, c | (d, c) in t.verifiedBy ensures EdgeKept(t, d, c) {
      if (d, c) in b.verifiedBy {
        assert EdgeKept(b, d, c) && BeliefShifts(b, t, d) && BeliefShifts(b, t, c);
      } else {
        assert MergesInto(b, t, d, k);
      }
    }
    forall d, c, e | (d, c) in t.verifiedBy && (d, e) in t.verifiedBy ensures c == e {
      if d in ds {
        assert MergesInto(b, t, d, k);
        assert (d, c) in b.verifiedBy ==> EdgeKept(b, d, c);
        assert (d, e) in b.verifiedBy ==> EdgeKept(b, d, e);
      }
    }
    if ds == {} {
      assert t.verifiedBy == b.verifiedBy;
    } else {
      var i :| i in ds;
      assert MergesInto(b, t, i, k);
      forall j | j in ds ensures j != k {
        assert MergesInto(b, t, j, k);
      }
      forall y ensures (k, y) !in t.verifiedBy {
        assert (k, y) in b.verifiedBy ==> EdgeKept(b, k, y);
      }
      StaysAcyclic(b.verifiedBy, t.verifiedBy, k);
    }
  }

  /** Whatever a merged belief was verified by, however indirectly, holds all its evidence. */
  lemma {:induction false} EvidenceReaches(b: Base, d: Id, c: Id, n: nat)
    requires Forest(b) && d in b.beliefs && Path(b.verifiedBy, d, c, n)
    ensures c in b.beliefs && b.beliefs[d].sources <= b.beliefs[c].sources
    decreases n
  {
    if n > 0 {
      var x :| (d, x) in b.verifiedBy && Path(b.verifiedBy, x, c, n - 1);
      assert EdgeKept(b, d, x);
      EvidenceReaches(b, x, c, n - 1);
    }
  }

  // ----- One active belief per key -----

  predicate Rivals(x: Belief, y: Belief) {
    x.status == Active && y.status == Active && x.agent == y.agent && x.key.Some? && x.key == y.key
  }

  ghost predicate Functional(b: Base) {
    forall i, j :: i in b.beliefs && j in b.beliefs && Rivals(b.beliefs[i], b.beliefs[j]) ==> i == j
  }

  /** The beliefs keep agent, key and value, and nothing becomes active but the beliefs in promoted. */
  ghost predicate Activates(b: Base, t: Base, promoted: set<Id>) {
    forall i :: i in t.beliefs && t.beliefs[i].status == Active && i !in promoted ==>
      i in b.beliefs && b.beliefs[i].status == Active
      && t.beliefs[i].agent == b.beliefs[i].agent && t.beliefs[i].key == b.beliefs[i].key
  }

  lemma NothingNew(b: Base, t: Base)
    requires Functional(b) && Activates(b, t, {})
    ensures Functional(t)
  {
  }

  /** An active belief of the same agent about the same key. */
  ghost predicate HasActivePeer(b: Base, c: Id)
    requires c in b.beliefs
  {
    exists p :: p in b.beliefs && p != c && b.beliefs[p].status == Active
                && b.beliefs[p].agent == b.beliefs[c].agent && b.beliefs[p].key == b.beliefs[c].key && b.beliefs[p].key.Some?
  }

  // ----- What judging a candidate does to each belief -----

  ghost predicate WellJudged(b: Base, c: Id, matches: set<Match>, ev: Evidence, now: Time) {
    c in b.beliefs && b.beliefs[c].status == Candidate && !InvalidInterval(b.beliefs[c]) && !Expired(b.beliefs[c], now)
  }

  ghost function Chosen(b: Base, c: Id, matches: set<Match>): Id
    requires c in b.beliefs
  {
    Canonical(b.beliefs, Equivalents(b, c, matches))
  }

  /** The state just before the decision whether to activate. */
  ghost function Weighed(b: Base, c: Id, matches: set<Match>): Base
    requires c in b.beliefs
  {
    var ids := Equivalents(b, c, matches);
    Contradicted(Merged(b, ids, Chosen(b, c, matches)), Chosen(b, c, matches), Conflicts(b, c, Chosen(b, c, matches), matches))
  }

  /** The branch of governCandidate that makes the canonical belief active. */
  ghost predicate Promotes(b: Base, c: Id, matches: set<Match>, ev: Evidence, now: Time) {
    && WellJudged(b, c, matches, ev, now)
    && MayActivate(Weighed(b, c, matches).beliefs[Chosen(b, c, matches)], Conflicts(b, c, Chosen(b, c, matches), matches), ev, now)
  }

  lemma ChosenFacts(b: Base, c: Id, matches: set<Match>)
    requires c in b.beliefs && Live(b.beliefs[c].status)
    ensures var k := Chosen(b, c, matches);
            && k in b.beliefs && Live(b.beliefs[k].status) && SameFact(b.beliefs[k], b.beliefs[c]) && b.beliefs[k].agent == b.beliefs[c].agent
            && k in Equivalents(b, c, matches)
    ensures forall i :: i in Equivalents(b, c, matches) ==>
              && i in b.beliefs && Live(b.beliefs[i].status)
              && (b.beliefs[i].status == Active ==> b.beliefs[Chosen(b, c, matches)].status == Active)
  {
  }

  /** Same agent, key and value, and no mark of the governor lost. */
  predicate SameClaim(x: Belief, y: Belief) {
    x.agent == y.agent && x.key == y.key && x.value == y.value && (y.governed ==> x.governed)
  }

  lemma MergedFacts(b: Base, ids: set<Id>, k: Id, i: Id)
    requires ids <= b.beliefs.Keys && k in ids && i in b.beliefs
    ensures var t := Merged(b, ids, k);
            && t.beliefs.Keys == b.beliefs.Keys
            && SameClaim(t.beliefs[i], b.beliefs[i])
            && t.beliefs[i].status == (if i != k && i in ids then Superseded else b.beliefs[i].status)
            && t.beliefs[i].sources == (if i == k then AllSources(b.beliefs, ids) else b.beliefs[i].sources)
  {
  }

  lemma ContradictedFacts(b: Base, k: Id, conflicts: set<Id>, i: Id)
    requires k in b.beliefs && i in b.beliefs
    ensures var t := Contradicted(b, k, conflicts);
            && t.beliefs.Keys == b.beliefs.Keys && t.verifiedBy == b.verifiedBy
            && SameClaim(t.beliefs[i], b.beliefs[i])
            && t.beliefs[i].sources == b.beliefs[i].sources
            && t.beliefs[i].status == (if i == k && conflicts != {} && b.beliefs[i].status != Active then Disputed else b.beliefs[i].status)
  {
  }

  lemma WeighedFacts(b: Base, c: Id, matches: set<Match>, i: Id)
    requires c in b.beliefs && Live(b.beliefs[c].status)
    requires i in b.beliefs
    ensures var t, k, ids := Weighed(b, c, matches), Chosen(b, c, matches), Equivalents(b, c, matches);
            && t.beliefs.Keys == b.beliefs.Keys && t.verifiedBy == Merged(b, ids, k).verifiedBy
            && SameClaim(t.beliefs[i], b.beliefs[i])
            && (i != k && i in ids ==> t.beliefs[i].status == Superseded && t.beliefs[i].sources == b.beliefs[i].sources)
            && (i != k && i !in ids ==> t.beliefs[i].status == b.beliefs[i].status && t.beliefs[i].sources == b.beliefs[i].sources)
            && (i == k ==> t.beliefs[i].sources == AllSources(b.beliefs, ids)
                           && t.beliefs[i].status == (if Conflicts(b, c, k, matches) != {} && b.beliefs[k].status != Active
                                                      then Disputed else b.beliefs[k].status))
  {
    ChosenFacts(b, c, matches);
    var ids, k := Equivalents(b, c, matches), Chosen(b, c, matches);
    MergedFacts(b, ids, k, i);
    ContradictedFacts(Merged(b, ids, k), k, Conflicts(b, c, k, matches), i);
  }

  /** What judging does to one belief. */
  lemma JudgedFacts(b: Base, c: Id, matches: set<Match>, ev: Evidence, now: Time, i: Id)
    requires WellJudged(b, c, matches, ev, now) && i in b.beliefs
    ensures var t, k := Judge(b, c, matches, ev, now).0, Chosen(b, c, matches);
            && t.beliefs.Keys == b.beliefs.Keys && SameClaim(t.beliefs[i], b.beliefs[i])
            && (i != k ==> t.beliefs[i].sources == b.beliefs[i].sources
                           && t.beliefs[i].status == (if i in Equivalents(b, c, matches) then Superseded else b.beliefs[i].status))
            && (i == k ==> t.beliefs[i].governed && t.beliefs[i].sources == AllSources(b.beliefs, Equivalents(b, c, matches))
                           && t.beliefs[i].status == (if Promotes(b, c, matches, ev, now) then Active
                                                      else if Conflicts(b, c, k, matches) != {} && b.beliefs[k].status != Active
                                                      then Disputed else b.beliefs[k].status))
  {
    WeighedFacts(b, c, matches, i);
  }

  /** The same belief up to its contradictions and the mark of the governor. */
  predicate AllButMarks(x: Belief, y: Belief) {
    x == y.(contradictions := x.contradictions, governed := x.governed)
  }

  /** A belief that is not merged keeps everything else. */
  lemma JudgedOther(b: Base, c: Id, matches: set<Match>, ev: Evidence, now: Time, i: Id)
    requires WellJudged(b, c, matches, ev, now) && i in b.beliefs && i !in Equivalents(b, c, matches)
    ensures var t := Judge(b, c, matches, ev, now).0;
            i in t.beliefs && AllButMarks(t.beliefs[i], b.beliefs[i])
  {
    var ids, k := Equivalents(b, c, matches), Chosen(b, c, matches);
    ChosenFacts(b, c, matches);
    assert Merged(b, ids, k).beliefs[i] == b.beliefs[i];
  }

  lemma MergedEdges(b: Base, ids: set<Id>, k: Id)
    requires ids <= b.beliefs.Keys && k in ids
    ensures Merged(b, ids, k).verifiedBy == b.verifiedBy + set i | i in ids - {k} :: (i, k)
  {
  }

  lemma JudgedBelief(b: Base, c: Id, matches: set<Match>, ev: Evidence, now: Time, i: Id)
    requires WellJudged(b, c, matches, ev, now) && i in b.beliefs
    ensures BeliefShifts(b, Judge(b, c, matches, ev, now).0, i)
    ensures var k := Chosen(b, c, matches);
            i in Equivalents(b, c, matches) - {k} ==> MergesInto(b, Judge(b, c, matches, ev, now).0, i, k)
  {
    var k, ids := Chosen(b, c, matches), Equivalents(b, c, matches);
    ChosenFacts(b, c, matches);
    JudgedFacts(b, c, matches, ev, now, i);
    JudgedFacts(b, c, matches, ev, now, k);
    if i in ids {
      SourcesWithin(b.beliefs, ids, i);
    }
  }

  /** Judging merges the duplicates into the canonical belief. */
  lemma JudgeShifts(b: Base, c: Id, matches: set<Match>, ev: Evidence, now: Time)
    requires WellJudged(b, c, matches, ev, now)
    ensures var k, ids := Chosen(b, c, matches), Equivalents(b, c, matches);
            Shift(b, Judge(b, c, matches, ev, now).0, ids - {k}, k)
  {
    var k, ids := Chosen(b, c, matches), Equivalents(b, c, matches);
    var t := Judge(b, c, matches, ev, now).0;
    ChosenFacts(b, c, matches);
    forall i | i in b.beliefs
      ensures BeliefShifts(b, t, i)
      ensures i in ids - {k} ==> MergesInto(b, t, i, k)
    {
      JudgedBelief(b, c, matches, ev, now, i);
    }
    MergedEdges(b, ids, k);
    WeighedFacts(b, c, matches, k);
  }

  lemma SourcesWithin(bs: Beliefs, ids: set<Id>, i: Id)
    requires ids <= bs.Keys && i in ids
    ensures bs[i].sources <= AllSources(bs, ids)
  {
  }

  lemma JudgeActivates(b: Base, c: Id, matches: set<Match>, ev: Evidence, now: Time)
    requires WellJudged(b, c, matches, ev, now)
    ensures var t := Judge(b, c, matches, ev, now).0;
            && Activates(b, t, if Promotes(b, c, matches, ev, now) then {Chosen(b, c, matches)} else {})
            && (Promotes(b, c, matches, ev, now) ==>
                  var k := Chosen(b, c, matches);
                  && k in t.beliefs && t.beliefs[k].status == Active && t.beliefs[k].agent == b.beliefs[c].agent
                  && t.beliefs[k].key == b.beliefs[c].key && b.beliefs[k].status != Active)
  {
    ChosenFacts(b, c, matches);
    var t := Judge(b, c, matches, ev, now).0;
    forall i | i in b.beliefs
      ensures t.beliefs[i].agent == b.beliefs[i].agent && t.beliefs[i].key == b.beliefs[i].key
      ensures t.beliefs[i].status == Active ==> b.beliefs[i].status == Active || (Promotes(b, c, matches, ev, now) && i == Chosen(b, c, matches))
    {
      JudgedFacts(b, c, matches, ev, now, i);
    }
    JudgedFacts(b, c, matches, ev, now, Chosen(b, c, matches));
  }

  /** While a belief is promoted, an active peer that was left out of the matches stays active. */
  lemma PeerStaysActive(b: Base, c: Id, matches: set<Match>, ev: Evidence, now: Time, p: Id)
    requires Promotes(b, c, matches, ev, now) && p in b.beliefs && b.beliefs[p].status == Active
    ensures var t := Judge(b, c, matches, ev, now).0;
            p != Chosen(b, c, matches) && p in t.beliefs && t.beliefs[p].status == Active
            && t.beliefs[p].agent == b.beliefs[p].agent && t.beliefs[p].key == b.beliefs[p].key
  {
  }

  /**
   * Judging keeps one active belief per key exactly when it does not promote a candidate that has
   * an active peer it was not matched with.
   */
  lemma GovernFunctionalExactly(b: Base, c: Id, matches: set<Match>, ev: Evidence, now: Time)
    requires Functional(b)
    ensures Functional(Govern(b, c, matches, ev, now).0) <==>
              !(Promotes(b, c, matches, ev, now) && b.beliefs[c].key.Some? && HasActivePeer(b, c))
  {
    var t := Govern(b, c, matches, ev, now).0;
    if !WellJudged(b, c, matches, ev, now) {
      NothingNew(b, t);
    } else {
      JudgeActivates(b, c, matches, ev, now);
      if !Promotes(b, c, matches, ev, now) {
        NothingNew(b, t);
      } else if b.beliefs[c].key.Some? && HasActivePeer(b, c) {
        var p :| p in b.beliefs && p != c && b.beliefs[p].status == Active
                 && b.beliefs[p].agent == b.beliefs[c].agent && b.beliefs[p].key == b.beliefs[c].key;
        PeerStaysActive(b, c, matches, ev, now, p);
        assert Rivals(t.beliefs[p], t.beliefs[Chosen(b, c, matches)]);
      } else {
        PromotedAlone(b, c, matches, ev, now);
      }
    }
  }

  lemma PromotedAlone(b: Base, c: Id, matches: set<Match>, ev: Evidence, now: Time)
    requires Functional(b) && Promotes(b, c, matches, ev, now) && !(b.beliefs[c].key.Some? && HasActivePeer(b, c))
    ensures Functional(Judge(b, c, matches, ev, now).0)
  {
    JudgeActivates(b, c, matches, ev, now);
    var t, k := Judge(b, c, matches, ev, now).0, Chosen(b, c, matches);
    forall i, j | i in t.beliefs && j in t.beliefs && Rivals(t.beliefs[i], t.beliefs[j]) ensures i == j {
      if i != k && j != k {
        assert Rivals(b.beliefs[i], b.beliefs[j]);
      }
    }
  }

  /** Every active belief of the candidate's agent about its key was matched, as what it is. */
  ghost predicate Complete(b: Base, c: Id, matches: set<Match>) {
    c in b.beliefs ==>
      forall p :: p in Peers(b, c) && SamePredicate(b.beliefs[p], b.beliefs[c]) ==>
        Match(p, if SameFact(b.beliefs[p], b.beliefs[c]) then ExactDuplicate else Conflict) in matches
  }

  /** With complete matches an active peer is a duplicate or a conflict. */
  lemma PeersAreSeen(b: Base, c: Id, matches: set<Match>)
    requires Complete(b, c, matches) && c in b.beliefs && Live(b.beliefs[c].status)
    ensures forall p :: p in Peers(b, c) && SamePredicate(b.beliefs[p], b.beliefs[c]) ==>
              p in Equivalents(b, c, matches) || p in Conflicts(b, c, Chosen(b, c, matches), matches)
  {
  }

  lemma CompleteNeverPromotesOver(b: Base, c: Id, matches: set<Match>, ev: Evidence, now: Time)
    requires Complete(b, c, matches) && Promotes(b, c, matches, ev, now)
    ensures !HasActivePeer(b, c)
  {
    PeersAreSeen(b, c, matches);
    ChosenFacts(b, c, matches);
    WeighedFacts(b, c, matches, Chosen(b, c, matches));
    assert forall p :: (p in b.beliefs && p != c && b.beliefs[p].status == Active && b.beliefs[p].agent == b.beliefs[c].agent) ==>
                         p in Peers(b, c);
  }

  // ----- The other operations -----

  lemma ConfirmIntoShifts(b: Base, c: Id, peer: Id)
    requires c in b.beliefs && Live(b.beliefs[c].status) && peer in SamePeers(b, c)
    ensures Shift(b, ConfirmInto(b, c, peer), {c}, peer)
  {
    var t := ConfirmInto(b, c, peer);
    assert t.verifiedBy == b.verifiedBy + set i | i in {c} :: (i, peer);
    assert MergesInto(b, t, c, peer);
  }

  lemma ConfirmShifts(b: Base, c: Id, now: Time, t: Base)
    requires ConfirmedTo(b, c, now, t)
    ensures exists ds, k :: Shift(b, t, ds, k)
  {
    if t == b {
      assert Shift(b, t, {}, c);
    } else if SamePeers(b, c) != {} {
      var peer :| peer in SamePeers(b, c) && t == ConfirmInto(b, c, peer);
      ConfirmIntoShifts(b, c, peer);
    } else {
      assert Shift(b, t, {}, c);
    }
  }

  lemma RivalsAreOthers(b: Base, c: Id)
    requires c in b.beliefs && SamePeers(b, c) == {}
    ensures forall p :: p in Peers(b, c) && SamePredicate(b.beliefs[p], b.beliefs[c]) ==> p in OtherPeers(b, c)
    ensures forall p :: p in b.beliefs && p != c && b.beliefs[p].status == Active && b.beliefs[p].agent == b.beliefs[c].agent ==>
                          p in Peers(b, c)
  {
    forall p | p in Peers(b, c) ensures !SameFact(b.beliefs[p], b.beliefs[c]) {
      assert p !in SamePeers(b, c);
    }
  }

  lemma ConfirmFunctional(b: Base, c: Id, now: Time, t: Base)
    requires Functional(b) && ConfirmedTo(b, c, now, t)
    ensures Functional(t)
  {
    if t != b && SamePeers(b, c) == {} {
      RivalsAreOthers(b, c);
      forall i, j | i in t.beliefs && j in t.beliefs && Rivals(t.beliefs[i], t.beliefs[j]) ensures i == j {
        if i != c && j != c {
          assert Rivals(b.beliefs[i], b.beliefs[j]);
        }
      }
    } else {
      NothingNew(b, t);
    }
  }

  ghost predicate Inv(b: Base) {
    Functional(b) && Forest(b)
  }

  /** The candidates are governed with matches that leave out no active belief about their key. */
  ghost predicate Attentive(b: Base, op: Op) {
    op.DoGovern? ==> Complete(b, op.id, op.matches)
  }

  lemma GovernKeepsForest(b: Base, c: Id, matches: set<Match>, ev: Evidence, now: Time)
    requires Forest(b)
    ensures Forest(Govern(b, c, matches, ev, now).0)
  {
    var t := Govern(b, c, matches, ev, now).0;
    if WellJudged(b, c, matches, ev, now) {
      JudgeShifts(b, c, matches, ev, now);
      ShiftKeepsForest(b, t, Equivalents(b, c, matches) - {Chosen(b, c, matches)}, Chosen(b, c, matches));
    } else {
      ShiftKeepsForest(b, t, {}, c);
    }
  }

  lemma GovernKeepsInv(b: Base, c: Id, matches: set<Match>, ev: Evidence, now: Time)
    requires Inv(b)
    ensures Forest(Govern(b, c, matches, ev, now).0)
    ensures Complete(b, c, matches) ==> Functional(Govern(b, c, matches, ev, now).0)
  {
    GovernKeepsForest(b, c, matches, ev, now);
    GovernFunctionalExactly(b, c, matches, ev, now);
    if Complete(b, c, matches) && Promotes(b, c, matches, ev, now) {
      CompleteNeverPromotesOver(b, c, matches, ev, now);
    }
  }

  /** The other operations merge nothing and make nothing active. */
  lemma OtherShifts(b: Base, op: Op, t: Base, k: Id)
    requires Step(b, op, t) && !op.DoGovern? && !op.DoConfirm?
    ensures Shift(b, t, {}, k) && Activates(b, t, {})
  {
    assert t.verifiedBy == b.verifiedBy;
    forall i | i in b.beliefs ensures BeliefShifts(b, t, i) {
      OtherShiftsOne(b, op, t, i);
    }
    OtherActivates(b, op, t);
  }

  lemma OtherShiftsOne(b: Base, op: Op, t: Base, i: Id)
    requires Step(b, op, t) && !op.DoGovern? && !op.DoConfirm? && i in b.beliefs
    ensures BeliefShifts(b, t, i)
  {
    match op
    case DoExtract(_, _, _) =>
    case DoEdit(_, _, _) =>
    case DoForget(_) =>
    case DoRetire(_) =>
    case DoLapse(_) =>
  }

  lemma OtherActivates(b: Base, op: Op, t: Base)
    requires Step(b, op, t) && !op.DoGovern? && !op.DoConfirm?
    ensures Activates(b, t, {})
  {
    match op
    case DoExtract(_, _, _) =>
    case DoEdit(_, _, _) =>
    case DoForget(_) =>
    case DoRetire(_) =>
    case DoLapse(_) =>
  }

  lemma StepKeepsInv(b: Base, op: Op, t: Base)
    requires Inv(b) && Step(b, op, t)
    ensures Forest(t)
    ensures Attentive(b, op) ==> Functional(t)
  {
    match op
    case DoGovern(c, matches, ev, now) => GovernKeepsInv(b, c, matches, ev, now);
    case DoConfirm(c, now) =>
      ConfirmFunctional(b, c, now, t);
      ConfirmShifts(b, c, now, t);
      var ds, k :| Shift(b, t, ds, k);
      ShiftKeepsForest(b, t, ds, k);
    case _ =>
      OtherShifts(b, op, t, Id(0));
      ShiftKeepsForest(b, t, {}, Id(0));
      NothingNew(b, t);
  }

  /**
   * Main result: over every run whose candidates are governed with complete matches, each agent has
   * at most one active belief per key, every merged belief points at one other without cycles, and
   * all its evidence is kept by every belief it leads to.
   */
  lemma {:induction false} RunKeepsInv(states: seq<Base>, ops: seq<Op>)
    requires IsRun(states, ops) && Inv(states[0])
    requires forall i :: 0 <= i < |ops| ==> Attentive(states[i], ops[i])
    ensures Inv(states[|ops|])
    ensures forall d, c, n: nat :: d in states[|ops|].beliefs && Path(states[|ops|].verifiedBy, d, c, n) ==>
              c in states[|ops|].beliefs && states[|ops|].beliefs[d].sources <= states[|ops|].beliefs[c].sources
    decreases |ops|
  {
    if |ops| > 0 {
      StepKeepsInv(states[0], ops[0], states[1]);
      assert Attentive(states[0], ops[0]);
      forall i | 0 <= i < |ops[1..]|
        ensures Step(states[1..][i], ops[1..][i], states[1..][i + 1]) && Attentive(states[1..][i], ops[1..][i])
      {
        assert states[1..][i] == states[i + 1] && states[1..][i + 1] == states[i + 2] && ops[1..][i] == ops[i + 1];
      }
      RunKeepsInv(states[1..], ops[1..]);
    } else {
      forall d, c, n: nat | d in states[0].beliefs && Path(states[0].verifiedBy, d, c, n)
        ensures c in states[0].beliefs && states[0].beliefs[d].sources <= states[0].beliefs[c].sources
      {
        EvidenceReaches(states[0], d, c, n);
      }
    }
  }
}
