/** The belief base as the repository updates it, row by row (src/memory/memory-repository.ts). */
module BeliefRepositories {
  import opened Wrappers
  import opened Governance

  /** The order of beliefs has no ties, so there is only one first belief. */
  lemma FirstIsUnique(bs: Beliefs, ids: set<Id>, i: Id, j: Id)
    requires ids <= bs.Keys && IsFirst(bs, ids, i) && IsFirst(bs, ids, j)
    ensures i == j
  {
  }

  lemma DecidedTwice(b: Base, i: Id, st: Status)
    requires i in b.beliefs
    ensures Decide(Decide(b, i, st), i, st) == Decide(b, i, st)
  {
  }

  /** No such candidate, the error about its interval, or the belief that is active now. */
  datatype Confirmation = NotWaiting | BadInterval | Confirmed(belief: Id)

  class BeliefRepository {
    var beliefs: Beliefs
    var verifiedBy: set<(Id, Id)>
    var contradicts: set<(Id, Id)>

    ghost function State(): Base
      reads this
    {
      Base(beliefs, verifiedBy, contradicts)
    }

    /** equivalent.sort(...)[0] */
    method FindCanonical(ids: set<Id>) returns (first: Id)
      requires ids <= beliefs.Keys && ids != {}
      ensures first == Canonical(beliefs, ids)
    {
      first :| first in ids;
      var left := ids - {first};
      while left != {}
        invariant first in ids && left <= ids
        invariant forall i :: i in ids && i !in left ==> NotAfter(beliefs, first, i)
        decreases |left|
      {
        var i :| i in left;
        if !NotAfter(beliefs, first, i) {
          first := i;
        }
        left := left - {i};
      }
      FirstIsUnique(beliefs, ids, first, Canonical(beliefs, ids));
    }

    /** The evidence and the highest trust of a set of beliefs. */
    method Gather(ids: set<Id>, canonical: Id) returns (sources: set<EventId>, trust: int)
      requires ids <= beliefs.Keys && canonical in ids
      ensures sources == AllSources(beliefs, ids) && trust == MaxTrust(beliefs, ids)
    {
      sources, trust := {}, beliefs[canonical].trust;
      var left := ids;
      while left != {}
        invariant left <= ids
        invariant sources == AllSources(beliefs, ids - left)
        invariant (exists i :: i in ids && beliefs[i].trust == trust) && forall i :: i in ids - left ==> beliefs[i].trust <= trust
        decreases |left|
      {
        var i :| i in left;
        sources := sources + beliefs[i].sources;
        if beliefs[i].trust > trust {
          trust := beliefs[i].trust;
        }
        assert ids - (left - {i}) == (ids - left) + {i};
        left := left - {i};
      }
      assert ids - left == ids;
      assert IsMaxTrust(beliefs, ids, MaxTrust(beliefs, ids)) && IsMaxTrust(beliefs, ids, trust);
    }

    method SupersedeAll(ids: set<Id>, stamp: bool)
      requires ids <= beliefs.Keys
      modifies this`beliefs
      ensures beliefs == map i | i in old(beliefs) ::
                if i in ids then old(beliefs)[i].(status := Superseded, governed := old(beliefs)[i].governed || stamp)
                else old(beliefs)[i]
    {
      var left := ids;
      while left != {}
        invariant left <= ids && beliefs.Keys == old(beliefs).Keys
        invariant forall i :: i in beliefs ==>
                    beliefs[i] == if i in ids && i !in left
                                  then old(beliefs)[i].(status := Superseded, governed := old(beliefs)[i].governed || stamp)
                                  else old(beliefs)[i]
        decreases |left|
      {
        var i :| i in left;
        beliefs := beliefs[i := beliefs[i].(status := Superseded, governed := beliefs[i].governed || stamp)];
        left := left - {i};
      }
    }

    /** The canonical belief takes over the evidence, the duplicates are superseded and point at it. */
    method Merge(ids: set<Id>, canonical: Id)
      requires ids <= beliefs.Keys && canonical in ids
      modifies this
      ensures State() == Merged(old(State()), ids, canonical)
    {
      if ids == {canonical} {
        return;
      }
      var sources, trust := Gather(ids, canonical);
      beliefs := beliefs[canonical := beliefs[canonical].(sources := sources, trust := trust, governed := true)];
      SupersedeAll(ids - {canonical}, true);
      verifiedBy := verifiedBy + set i | i in ids && i != canonical :: (i, canonical);
      assert beliefs == Merged(old(State()), ids, canonical).beliefs;
    }

    /** Each belief of a set records the contradiction with one other. */
    method RecordAgainst(canonical: Id, conflicts: set<Id>)
      requires conflicts <= beliefs.Keys
      modifies this`beliefs
      ensures beliefs == map i | i in old(beliefs) ::
                if i in conflicts then old(beliefs)[i].(contradictions := old(beliefs)[i].contradictions + {canonical}, governed := true)
                else old(beliefs)[i]
    {
      var left := conflicts;
      while left != {}
        invariant left <= conflicts && beliefs.Keys == old(beliefs).Keys
        invariant forall i :: i in beliefs ==>
                    beliefs[i] == if i in conflicts && i !in left
                                  then old(beliefs)[i].(contradictions := old(beliefs)[i].contradictions + {canonical}, governed := true)
                                  else old(beliefs)[i]
        decreases |left|
      {
        var i :| i in left;
        beliefs := beliefs[i := beliefs[i].(contradictions := beliefs[i].contradictions + {canonical}, governed := true)];
        left := left - {i};
      }
    }

    /** Both sides of each conflict record the other. */
    method RecordConflicts(canonical: Id, conflicts: set<Id>)
      requires canonical in beliefs && conflicts <= beliefs.Keys && canonical !in conflicts
      modifies this
      ensures State() == Contradicted(old(State()), canonical, conflicts)
    {
      if conflicts == {} {
        return;
      }
      RecordAgainst(canonical, conflicts);
      contradicts := contradicts + (set i | i in conflicts :: (canonical, i)) + (set i | i in conflicts :: (i, canonical));
      var m := beliefs[canonical];
      beliefs := beliefs[canonical := m.(contradictions := m.contradictions + conflicts,
                                         status := if m.status == Active then Active else Disputed, governed := true)];
      assert beliefs == Contradicted(old(State()), canonical, conflicts).beliefs;
    }

    method UpdateStatus(i: Id, st: Status)
      requires i in beliefs
      modifies this`beliefs
      ensures State() == Decide(old(State()), i, st)
    {
      beliefs := beliefs[i := beliefs[i].(status := st, governed := true)];
    }

    /** The candidates of the matches that may be used, by kind. */
    method UsableMatches(c: Id, matches: set<Match>) returns (exact: set<Id>)
      requires c in beliefs
      ensures {c} + exact == Equivalents(State(), c, matches)
    {
      exact := set m | m in matches && m.kind == ExactDuplicate && m.target in beliefs && m.target != c
                       && beliefs[m.target].agent == beliefs[c].agent && Live(beliefs[m.target].status)
                       && SameFact(beliefs[m.target], beliefs[c]) :: m.target;
    }

    method JudgeCandidate(c: Id, matches: set<Match>, ev: Evidence, now: Time) returns (action: Action)
      requires c in beliefs && Live(beliefs[c].status)
      modifies this
      ensures (State(), action) == Judge(old(State()), c, matches, ev, now)
    {
      ghost var b := State();
      var exact := UsableMatches(c, matches);
      var ids := {c} + exact;
      var canonical := FindCanonical(ids);
      var conflicts := Conflicts(Base(beliefs, verifiedBy, contradicts), c, canonical, matches);
      action := if ids == {canonical} then Retained else MergedInto;
      Merge(ids, canonical);
      RecordConflicts(canonical, conflicts);
      if conflicts != {} {
        action := if canonical == c then WasDisputed else MergedInto;
      }
      ghost var judged := State();
      if MayActivate(beliefs[canonical], conflicts, ev, now) {
        UpdateStatus(canonical, Active);
        DecidedTwice(judged, canonical, Active);
        action := if canonical == c then Activated else MergedInto;
      }
      UpdateStatus(canonical, beliefs[canonical].status);
    }

    method GovernCandidate(c: Id, matches: set<Match>, ev: Evidence, now: Time) returns (action: Action)
      modifies this
      ensures (State(), action) == Govern(old(State()), c, matches, ev, now)
    {
      if c !in beliefs || beliefs[c].status != Candidate {
        return Absent;
      }
      var m := beliefs[c];
      if m.validFrom.Some? && m.validTo.Some? && m.validTo.value <= m.validFrom.value {
        UpdateStatus(c, Disputed);
        return WasInvalid;
      }
      if m.validTo.Some? && m.validTo.value <= now {
        UpdateStatus(c, Superseded);
        return WentStale;
      }
      action := JudgeCandidate(c, matches, ev, now);
    }

    method ConfirmCandidate(c: Id, now: Time) returns (outcome: Confirmation)
      modifies this
      ensures ConfirmedTo(old(State()), c, now, State())
      ensures outcome == NotWaiting <==>
                !(c in old(beliefs) && (old(beliefs)[c].status == Candidate || old(beliefs)[c].status == Disputed))
      ensures outcome == BadInterval <==>
                outcome != NotWaiting && (InvalidInterval(old(beliefs)[c]) || Expired(old(beliefs)[c], now))
      ensures outcome.Confirmed? ==>
                && outcome.belief in beliefs && beliefs[outcome.belief].status == Active
                && (if SamePeers(old(State()), c) == {} then outcome.belief == c else outcome.belief in SamePeers(old(State()), c))
    {
      if c !in beliefs || (beliefs[c].status != Candidate && beliefs[c].status != Disputed) {
        return NotWaiting;
      }
      if InvalidInterval(beliefs[c]) || Expired(beliefs[c], now) {
        return BadInterval;
      }
      ghost var b := State();
      var peers := set i | i in beliefs && i != c && beliefs[i].agent == beliefs[c].agent && beliefs[i].status == Active;
      var same := set i | i in peers && SameFact(beliefs[i], beliefs[c]);
      assert peers == Peers(b, c) && same == SamePeers(b, c);
      if same != {} {
        var peer :| peer in same;
        beliefs := beliefs[peer := beliefs[peer].(sources := beliefs[peer].sources + beliefs[c].sources, governed := true)];
        beliefs := beliefs[c := beliefs[c].(status := Superseded, governed := true)];
        verifiedBy := verifiedBy + {(c, peer)};
        assert State() == ConfirmInto(b, c, peer);
        return Confirmed(peer);
      }
      SupersedePeers(c);
      outcome := Confirmed(c);
    }

    /** The peers that contradict a confirmed belief are superseded, then it becomes active. */
    method SupersedePeers(c: Id)
      requires c in beliefs
      modifies this`beliefs
      ensures State() == ConfirmOver(old(State()), c)
    {
      ghost var b := State();
      SupersedeAll(OtherPeers(Base(beliefs, verifiedBy, contradicts), c), false);
      beliefs := beliefs[c := beliefs[c].(status := Active, contradictions := {}, governed := true)];
      assert beliefs == ConfirmOver(b, c).beliefs;
    }
  }
}
