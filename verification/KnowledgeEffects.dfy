/**
 * What each transaction of the knowledge outbox does to one document, and how two rounds end, with
 * active and removed documents told apart (src/memory/memory-repository.ts).
 */
module KnowledgeEffects {
  import opened Wrappers
  import opened OutboxModel
  import opened KnowledgeOutbox

  /** The membership already asks for, or is, what the document wants, or it failed with this content. */
  ghost predicate LeftAlone(s: Store, d: DocumentId)
    requires d in s.documents
  {
    && d in s.memberships && s.memberships[d].hash == s.documents[d].hash
    && (s.memberships[d].status == Wanted || s.memberships[d].status == Failed
        || s.memberships[d].status == if s.documents[d].active then Indexed else Deleted)
  }

  /** A waiting row that no one holds, due now at the latest. */
  predicate Fresh(r: Row, now: Time) {
    r.status == Pending && r.attempts == 0 && r.nextAttempt == now && r.owner == None && r.expires == None
  }

  /** Reconciling queues an upsert for an active document and a delete for any other, unless it is left alone. */
  lemma ReconcileDoes(s: Store, now: Time, d: DocumentId)
    requires d in s.documents
    ensures d in Due(s) <==> !LeftAlone(s, d)
    ensures var t := Reconcile(s, now);
            && t.documents == s.documents && d in t.memberships
            && (LeftAlone(s, d) ==> t.memberships[d] == s.memberships[d])
            && (!LeftAlone(s, d) ==>
                  var k := WorkKey(d, if s.documents[d].active then ToUpsert else ToDelete, s.documents[d].hash);
                  t.memberships[d] == Membership(s.documents[d].hash, Wanted) && k in t.work && Fresh(t.work[k], now))
  {
    assert WorkKey(d, if s.documents[d].active then ToUpsert else ToDelete, s.documents[d].hash) == Target(s, d);
  }

  /** No other row is revived; what waits is made available now at the latest. */
  lemma ReconcileKeepsRows(s: Store, now: Time, k: WorkKey)
    requires k in s.work
    requires k.document in s.documents && !LeftAlone(s, k.document) ==>
               k.op != (if s.documents[k.document].active then ToUpsert else ToDelete) || k.hash != s.documents[k.document].hash
    ensures var t := Reconcile(s, now);
            && k in t.work
            && t.work[k] == if s.work[k].status == Pending && s.work[k].nextAttempt > now
                            then s.work[k].(nextAttempt := now) else s.work[k]
  {
    if k.document in s.documents {
      ReconcileDoes(s, now, k.document);
      assert !LeftAlone(s, k.document) ==> k != Target(s, k.document);
    }
  }

  /** A removed document that is still indexed is queued for removal, and counted. */
  lemma RemovalIsQueued(s: Store, now: Time, d: DocumentId)
    requires d in s.documents && !s.documents[d].active && d in s.memberships && s.memberships[d].status == Indexed
    ensures var t, k := Reconcile(s, now), WorkKey(d, ToDelete, s.documents[d].hash);
            k in t.work && Fresh(t.work[k], now) && d in Due(s) && !Stable(s)
  {
    ReconcileDoes(s, now, d);
    assert !Current(s, d) && !GivenUp(s, d);
  }

  /** Main result: after two rounds every active document is indexed and every removed one deleted, or it failed for good. */
  lemma TwoRoundsEnd(s: Store, now1: Time, drain1: seq<Event>, now2: Time, drain2: seq<Event>, d: DocumentId)
    requires Inv(s) && Drains(Reconcile(s, now1), drain1)
    requires Drains(Reconcile(Round(s, now1, drain1), now2), drain2) && d in s.documents
    ensures var t := Round(Round(s, now1, drain1), now2, drain2);
            && d in t.memberships && t.memberships[d].hash == s.documents[d].hash
            && (t.memberships[d].status == Failed || t.memberships[d].status == if s.documents[d].active then Indexed else Deleted)
  {
    TwoRoundsStabilise(s, now1, drain1, now2, drain2, 0);
    var t := Round(Round(s, now1, drain1), now2, drain2);
    assert Current(t, d) || GivenUp(t, d);
  }

  /** Stable means settled in this sense. */
  lemma StableMeans(s: Store)
    ensures Stable(s) <==>
              forall d :: d in s.documents ==>
                && d in s.memberships && s.memberships[d].hash == s.documents[d].hash
                && (s.memberships[d].status == Failed || s.memberships[d].status == if s.documents[d].active then Indexed else Deleted)
  {
    forall d | d in s.documents
      ensures Current(s, d) || GivenUp(s, d) <==>
                && d in s.memberships && s.memberships[d].hash == s.documents[d].hash
                && (s.memberships[d].status == Failed || s.memberships[d].status == if s.documents[d].active then Indexed else Deleted)
    {
    }
  }

  // ----- Workers -----

  /** Rows whose lease has run out wait again; those that are claimed are leased and count one more attempt. */
  lemma ClaimDoes(s: Store, keys: set<WorkKey>, w: WorkerId, now: Time, expires: Time, k: WorkKey)
    requires k in s.work
    ensures var t, r := ClaimWork(s, keys, w, now, expires), s.work[k];
            var over := r.status == Processing && r.expires.Some? && r.expires.value <= now;
            && t.documents == s.documents && t.memberships == s.memberships && t.work.Keys == s.work.Keys
            && t.work[k] == if k in keys then r.(status := Processing, attempts := r.attempts + 1, owner := Some(w), expires := Some(expires))
                            else if over then r.(status := Pending, owner := None, expires := None) else r
    ensures MayClaim(s, {k}, now) <==>
              && s.work[k].nextAttempt <= now
              && (s.work[k].status == Pending || (s.work[k].status == Processing && s.work[k].expires.Some? && s.work[k].expires.value <= now))
  {
  }

  /** The worker's lease on the row has not run out. */
  ghost predicate LeaseHeld(s: Store, k: WorkKey, w: WorkerId, now: Time) {
    k in s.work && s.work[k].status == Processing && s.work[k].owner == Some(w) && s.work[k].expires.Some? && now < s.work[k].expires.value
  }

  /** Finishing one row. */
  lemma CompleteDoes(s: Store, k: WorkKey, w: WorkerId, now: Time)
    ensures var t := CompleteWork(s, k, w, now);
            && (!LeaseHeld(s, k, w, now) ==> t == s)
            && (LeaseHeld(s, k, w, now) ==>
                  && t.documents == s.documents
                  && t.work == s.work[k := s.work[k].(status := Completed, owner := None, expires := None)]
                  && (k.document !in s.memberships ==> t.memberships == s.memberships)
                  && (k.document in s.memberships ==>
                        t.memberships == s.memberships[k.document := Membership(k.hash, if k.op == ToUpsert then Indexed else Deleted)]))
  {
  }

  lemma FailDoes(s: Store, k: WorkKey, w: WorkerId, retryAt: Time, dead: bool, now: Time)
    ensures var t := FailWork(s, k, w, retryAt, dead, now);
            && (!LeaseHeld(s, k, w, now) ==> t == s)
            && (LeaseHeld(s, k, w, now) ==>
                  && t.documents == s.documents
                  && t.work == s.work[k := s.work[k].(status := if dead then DeadLetter else Pending, nextAttempt := retryAt,
                                                      owner := None, expires := None)]
                  && (k.document !in s.memberships ==> t.memberships == s.memberships)
                  && (k.document in s.memberships ==>
                        t.memberships == s.memberships[k.document := Membership(s.memberships[k.document].hash, if dead then Failed else Wanted)]))
  {
  }
}
