/** What each transaction of the index outbox does, column by column (src/memory/memory-repository.ts). */
module OutboxEffects {
  import opened Wrappers
  import opened OutboxModel
  import opened OutboxRepositories
  import opened Ranking

  // ----- enqueueIndexForTarget -----

  /** The rows after an enqueue: waiting upserts of other content give way, and a row is inserted if there was none. */
  ghost predicate RowsAfter(s: Outbox, t: Outbox, k: Key, now: Time) {
    && (k in t.rows && t.rows[k] == if k in s.rows then s.rows[k] else Row(Pending, 0, now, now, None, None))
    && forall j :: j != k ==>
         && (j in t.rows <==> j in s.rows)
         && (j in s.rows ==>
               t.rows[j] == if j.memory == k.memory && j.Upsert? && s.rows[j].status == Pending
                            then s.rows[j].(status := Completed) else s.rows[j])
  }

  /** An upsert changes nothing but the stored hash when the membership has this content, indexed or failed. */
  lemma EnqueueUpsertDoes(s: Outbox, m: MemoryId, now: Time)
    requires m in s.memories
    ensures var t, h := Enqueue(s, m, ToUpsert, now), s.memories[m].projection;
            && t.memories == s.memories[m := Memory(s.memories[m].active, h, h)]
            && if m in s.memberships && s.memberships[m] in {Membership(h, Indexed), Membership(h, Failed)}
               then t.memberships == s.memberships && t.rows == s.rows
               else t.memberships == s.memberships[m := Membership(h, Wanted)] && RowsAfter(s, t, Upsert(m, h), now)
  {
  }

  /** A delete changes nothing but the stored hash when the membership is deleted. */
  lemma EnqueueDeleteDoes(s: Outbox, m: MemoryId, now: Time)
    requires m in s.memories
    ensures var t, h := Enqueue(s, m, ToDelete, now), s.memories[m].projection;
            && t.memories == s.memories[m := Memory(s.memories[m].active, h, h)]
            && if m in s.memberships && s.memberships[m].status == Deleted
               then t.memberships == s.memberships && t.rows == s.rows
               else t.memberships == s.memberships[m := Membership(h, Wanted)] && RowsAfter(s, t, Delete(m), now)
  {
  }

  // ----- reconcileIndexRevision -----

  /** Nothing is left waiting for a later time, and only that changes. */
  lemma MakeAvailableDoes(s: Outbox, now: Time)
    ensures var t := MakeAvailable(s, now);
            && t.memories == s.memories && t.memberships == s.memberships && t.rows.Keys == s.rows.Keys
            && forall k :: k in s.rows ==>
                 && (t.rows[k].status == Pending ==> t.rows[k].nextAttempt <= now)
                 && (s.rows[k].status != Pending || s.rows[k].nextAttempt <= now ==> t.rows[k] == s.rows[k])
                 && t.rows[k] == s.rows[k].(nextAttempt := t.rows[k].nextAttempt)
                 && (t.rows[k].nextAttempt == s.rows[k].nextAttempt || t.rows[k].nextAttempt == now)
  {
  }

  /** An active memory asks for its content, unless the membership has it, indexed or failed. */
  lemma ReconcileActive(s: Outbox, t: Outbox, now: Time, m: MemoryId)
    requires Reconciled(s, t, now) && m in s.memories && s.memories[m].active
    ensures var h := s.memories[m].projection;
            && m in t.memories && t.memories[m] == Memory(true, h, h) && m in t.memberships
            && if m in s.memberships && s.memberships[m] in {Membership(h, Indexed), Membership(h, Failed)}
               then t.memberships[m] == s.memberships[m]
               else && t.memberships[m] == Membership(h, Wanted) && Upsert(m, h) in t.rows
                    && (Upsert(m, h) !in s.rows ==> t.rows[Upsert(m, h)] == Row(Pending, 0, now, now, None, None))
  {
    EnqueueUpsertDoes(s, m, now);
    ReconciledMeans(s, t, now, m);
  }

  lemma ReconciledMeans(s: Outbox, t: Outbox, now: Time, m: MemoryId)
    requires Reconciled(s, t, now)
    ensures var u := MakeAvailable(ReconciledOne(s, m, now), now);
            && (m in t.memories <==> m in u.memories) && (m in u.memories ==> t.memories[m] == u.memories[m])
            && (m in t.memberships <==> m in u.memberships) && (m in u.memberships ==> t.memberships[m] == u.memberships[m])
            && forall k: Key :: k.memory == m ==> (k in t.rows <==> k in u.rows) && (k in u.rows ==> t.rows[k] == u.rows[k])
  {
    assert SliceOf(t, m) == SliceOf(MakeAvailable(ReconciledOne(s, m, now), now), m);
    SliceMeans(t, MakeAvailable(ReconciledOne(s, m, now), now), m);
  }

  /** A memory that is no longer active, and whose membership is not yet deleted, asks for its removal. */
  lemma ReconcileRemoved(s: Outbox, t: Outbox, now: Time, m: MemoryId)
    requires Reconciled(s, t, now) && m in s.memories && !s.memories[m].active
    ensures m in t.memories && !t.memories[m].active && (m in t.memberships <==> m in s.memberships)
    ensures m in s.memberships && s.memberships[m].status != Deleted ==>
              && t.memberships[m] == Membership(s.memories[m].projection, Wanted) && Delete(m) in t.rows
              && (Delete(m) !in s.rows ==> t.rows[Delete(m)] == Row(Pending, 0, now, now, None, None))
    ensures m in s.memberships && s.memberships[m].status == Deleted ==> t.memberships[m] == s.memberships[m]
  {
    EnqueueDeleteDoes(s, m, now);
    ReconciledMeans(s, t, now, m);
  }

  /** Rows are kept; what waited is available, and a waiting upsert may have given way. */
  lemma ReconcileKeepsRow(s: Outbox, t: Outbox, now: Time, k: Key)
    requires Reconciled(s, t, now) && k in s.rows
    ensures k in t.rows && (t.rows[k].status == Pending ==> t.rows[k].nextAttempt <= now)
    ensures s.rows[k].status != Pending ==> t.rows[k] == s.rows[k]
    ensures t.rows[k].status != s.rows[k].status ==> s.rows[k].status == Pending && t.rows[k].status == Completed && k.Upsert?
  {
    ReconciledMeans(s, t, now, k.memory);
    MakeAvailableDoes(ReconciledOne(s, k.memory, now), now);
    if k.memory in s.memories {
      EnqueueUpsertDoes(s, k.memory, now);
      EnqueueDeleteDoes(s, k.memory, now);
    }
  }

  // ----- claimIndexOutbox -----

  ghost predicate LeaseOver(r: Row, now: Time) {
    r.status == Processing && r.expires.Some? && r.expires.value <= now
  }

  /** A claimed row waited, or its lease had run out, and its time had come; it counts one more attempt. */
  lemma ClaimDoes(s: Outbox, keys: seq<Key>, w: WorkerId, now: Time, expires: Time)
    requires Claimable(s, keys, now)
    ensures forall k :: k in keys ==> k in s.rows && (s.rows[k].status == Pending || LeaseOver(s.rows[k], now)) && s.rows[k].nextAttempt <= now
    ensures var t := Claim(s, keys, w, now, expires);
            && t.memories == s.memories && t.memberships == s.memberships && t.rows.Keys == s.rows.Keys
            && forall k :: k in s.rows ==>
                 t.rows[k] == var r := s.rows[k];
                              if k in keys then Row(Processing, r.attempts + 1, r.nextAttempt, r.created, Some(w), Some(expires))
                              else if LeaseOver(r, now) then Row(Pending, r.attempts, r.nextAttempt, r.created, None, None)
                              else r
  {
  }

  /** A claim takes the oldest rows, upserts before deletes of one time, and as many as there are up to the limit. */
  lemma ClaimTakesOldest(s: Outbox, keys: seq<Key>, limit: nat, now: Time)
    requires var reset := ResetExpired(s, now); Front(QueueOrder(reset.rows), AvailableKeys(reset, now), keys, limit)
    ensures |keys| <= limit && forall a :: a in keys ==> a in s.rows
    ensures forall b :: b in s.rows && b !in keys && (s.rows[b].status == Pending || LeaseOver(s.rows[b], now)) && s.rows[b].nextAttempt <= now ==>
              && |keys| == limit
              && forall a :: a in keys ==>
                   && s.rows[a].created <= s.rows[b].created
                   && (s.rows[a].created == s.rows[b].created ==> a.Upsert? || b.Delete?)
    ensures forall i, j :: 0 <= i < j < |keys| ==>
              && s.rows[keys[i]].created <= s.rows[keys[j]].created
              && (s.rows[keys[i]].created == s.rows[keys[j]].created ==> keys[i].Upsert? || keys[j].Delete?)
  {
    var reset := ResetExpired(s, now);
    forall b | b in s.rows && b !in keys && (s.rows[b].status == Pending || LeaseOver(s.rows[b], now)) && s.rows[b].nextAttempt <= now
      ensures |keys| == limit
      ensures forall a :: a in keys ==>
                && s.rows[a].created <= s.rows[b].created
                && (s.rows[a].created == s.rows[b].created ==> a.Upsert? || b.Delete?)
    {
      assert b in AvailableKeys(reset, now);
    }
  }

  // ----- completeIndexOutbox, failIndexOutbox, retryIndexDeadLetters -----

  ghost predicate LeaseHeld(s: Outbox, k: Key, w: WorkerId, now: Time) {
    k in s.rows && s.rows[k].status == Processing && s.rows[k].owner == Some(w) && s.rows[k].expires.Some? && now < s.rows[k].expires.value
  }

  lemma HoldsMeans(s: Outbox, k: Key, w: WorkerId, now: Time)
    ensures Holds(s, k, w, now) <==> LeaseHeld(s, k, w, now)
  {
  }

  /** An upsert leaves its content indexed, a delete leaves the membership deleted with the content it had. */
  lemma CompleteDoes(s: Outbox, k: Key, w: WorkerId, now: Time)
    ensures var t := Complete(s, k, w, now);
            && (!LeaseHeld(s, k, w, now) ==> t == s)
            && (LeaseHeld(s, k, w, now) ==>
                  && t.memories == s.memories
                  && t.rows == s.rows[k := s.rows[k].(status := Completed, owner := None, expires := None)]
                  && (k.memory !in s.memberships ==> t.memberships == s.memberships)
                  && (k.memory in s.memberships ==>
                        t.memberships == s.memberships[k.memory := if k.Upsert? then Membership(k.hash, Indexed)
                                                                   else Membership(s.memberships[k.memory].hash, Deleted)]))
  {
  }

  ghost predicate LastTry(s: Outbox, k: Key, f: Fault) {
    k in s.rows && (!f.retryable || s.rows[k].attempts >= f.maxAttempts)
  }

  /** A fault that may not be retried, or on the last attempt, leaves a dead letter and a failed membership. */
  lemma FailDoes(s: Outbox, k: Key, w: WorkerId, f: Fault, now: Time)
    ensures var t := Fail(s, k, w, f, now);
            && (!LeaseHeld(s, k, w, now) ==> t == s)
            && (LeaseHeld(s, k, w, now) ==>
                  && t.memories == s.memories
                  && t.rows == s.rows[k := s.rows[k].(status := if LastTry(s, k, f) then DeadLetter else Pending,
                                                      nextAttempt := if LastTry(s, k, f) then now else f.retryAt,
                                                      owner := None, expires := None)]
                  && (k.memory !in s.memberships ==> t.memberships == s.memberships)
                  && (k.memory in s.memberships ==>
                        t.memberships == s.memberships[k.memory := Membership(s.memberships[k.memory].hash,
                                                                              if LastTry(s, k, f) then Failed else Wanted)]))
  {
  }

  /** Dead letters wait again with no attempt made, and so do the memberships of their memories. */
  lemma RetryDeadDoes(s: Outbox, now: Time)
    ensures var t := RetryDead(s, now);
            && t.memories == s.memories && t.rows.Keys == s.rows.Keys && t.memberships.Keys == s.memberships.Keys
            && (forall k :: k in s.rows ==>
                  t.rows[k] == if s.rows[k].status == DeadLetter then Row(Pending, 0, now, s.rows[k].created, None, None) else s.rows[k])
            && forall m :: m in s.memberships ==>
                 t.memberships[m] == if exists k :: k in s.rows && k.memory == m && s.rows[k].status == DeadLetter
                                     then Membership(s.memberships[m].hash, Wanted) else s.memberships[m]
  {
  }

  // ----- validateIndexRevision -----

  lemma ValidationMeans(s: Outbox, m: MemoryId)
    ensures m in Validation(s).missing <==>
              m in s.memories && s.memories[m].active && !(m in s.memberships && s.memberships[m].status == Indexed)
    ensures m in Validation(s).mismatched <==>
              && m in s.memories && s.memories[m].active
              && m in s.memberships && s.memberships[m].status == Indexed && s.memberships[m].hash != s.memories[m].hash
    ensures m in Validation(s).stale <==>
              m in s.memories && !s.memories[m].active && m in s.memberships && s.memberships[m].status != Deleted
    ensures Validation(s).pending == |set k | k in s.rows && s.rows[k].status == Pending|
    ensures Validation(s).processing == |set k | k in s.rows && s.rows[k].status == Processing|
    ensures Validation(s).dead == |set k | k in s.rows && s.rows[k].status == DeadLetter|
  {
  }

  /** A clean snapshot: active memories are indexed with their content, all others are deleted, and no row is open or dead. */
  lemma CleanMeans(s: Outbox)
    ensures Clean(Validation(s)) <==>
              && (forall m :: m in s.memories && s.memories[m].active ==>
                    m in s.memberships && s.memberships[m] == Membership(s.memories[m].hash, Indexed))
              && (forall m :: m in s.memories && !s.memories[m].active && m in s.memberships ==> s.memberships[m].status == Deleted)
              && forall k :: k in s.rows ==> s.rows[k].status == Completed
  {
    forall m | m in s.memories ensures m in Validation(s).missing + Validation(s).mismatched + Validation(s).stale <==>
                if s.memories[m].active then !(m in s.memberships && s.memberships[m] == Membership(s.memories[m].hash, Indexed))
                else m in s.memberships && s.memberships[m].status != Deleted {
    }
    forall k, st | k in s.rows && s.rows[k].status == st ensures WithStatus(s, st) != {} {
      assert k in WithStatus(s, st);
    }
  }
}
