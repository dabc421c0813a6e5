/**
 * The outbox transactions as the repository runs them (src/memory/memory-repository.ts) and the
 * worker that calls them (src/memory/memory-index-worker.ts).
 */
module OutboxRepositories {
  import opened Wrappers
  import opened OutboxModel
  import opened OutboxSafety
  import opened Ranking

  // ----- One memory's part of the tables -----

  datatype Slice = Slice(memory: map<MemoryId, Memory>, membership: map<MemoryId, Membership>, rows: map<Key, Row>)

  function SliceOf(s: Outbox, m: MemoryId): Slice {
    Slice(map i | i in s.memories && i == m :: s.memories[i],
          map i | i in s.memberships && i == m :: s.memberships[i],
          map k | k in s.rows && k.memory == m :: s.rows[k])
  }

  lemma SliceMeans(s: Outbox, t: Outbox, m: MemoryId)
    requires SliceOf(s, m) == SliceOf(t, m)
    ensures (m in s.memories <==> m in t.memories) && (m in s.memories ==> s.memories[m] == t.memories[m])
    ensures (m in s.memberships <==> m in t.memberships) && (m in s.memberships ==> s.memberships[m] == t.memberships[m])
    ensures forall k: Key :: k.memory == m ==> (k in s.rows <==> k in t.rows) && (k in s.rows ==> s.rows[k] == t.rows[k])
  {
    var x, y := SliceOf(s, m), SliceOf(t, m);
    assert (m in x.memory) == (m in y.memory) && (m in x.membership) == (m in y.membership);
    forall k: Key | k.memory == m ensures (k in s.rows <==> k in t.rows) && (k in s.rows ==> s.rows[k] == t.rows[k]) {
      assert (k in x.rows) == (k in y.rows);
    }
  }

  lemma SliceFrom(s: Outbox, t: Outbox, m: MemoryId)
    requires (m in s.memories <==> m in t.memories) && (m in s.memories ==> s.memories[m] == t.memories[m])
    requires (m in s.memberships <==> m in t.memberships) && (m in s.memberships ==> s.memberships[m] == t.memberships[m])
    requires forall k: Key :: k.memory == m ==> (k in s.rows <==> k in t.rows) && (k in s.rows ==> s.rows[k] == t.rows[k])
    ensures SliceOf(s, m) == SliceOf(t, m)
  {
  }

  /** Enqueueing one memory leaves the others alone and depends on its own part only. */
  lemma EnqueueIsLocal(s: Outbox, m: MemoryId, op: Mutation, now: Time, n: MemoryId)
    requires m in s.memories && n != m
    ensures SliceOf(Enqueue(s, m, op, now), n) == SliceOf(s, n)
  {
    SliceFrom(Enqueue(s, m, op, now), s, n);
  }

  lemma EnqueueReadsSlice(s: Outbox, t: Outbox, m: MemoryId, op: Mutation, now: Time)
    requires m in s.memories && m in t.memories && SliceOf(s, m) == SliceOf(t, m)
    ensures SliceOf(Enqueue(s, m, op, now), m) == SliceOf(Enqueue(t, m, op, now), m)
  {
    SliceMeans(s, t, m);
    assert KeyFor(s, m, op) == KeyFor(t, m, op);
    assert Settled(RefreshHash(s, m), KeyFor(s, m, op)) == Settled(RefreshHash(t, m), KeyFor(t, m, op));
    SliceFrom(Enqueue(s, m, op, now), Enqueue(t, m, op, now), m);
  }

  lemma CatchupReadsSlice(s: Outbox, t: Outbox, m: MemoryId, now: Time)
    requires SliceOf(s, m) == SliceOf(t, m)
    ensures SliceOf(MakeAvailable(s, now), m) == SliceOf(MakeAvailable(t, now), m)
  {
    SliceMeans(s, t, m);
  }

  /** What a reconciliation does to one memory: active ones are queued, stale ones are to be removed. */
  function ReconciledOne(s: Outbox, m: MemoryId, now: Time): Outbox {
    if m in s.memories && s.memories[m].active then Enqueue(s, m, ToUpsert, now)
    else if Stale(s, m) then Enqueue(s, m, ToDelete, now)
    else s
  }

  ghost predicate Reconciled(s: Outbox, t: Outbox, now: Time) {
    forall m :: SliceOf(t, m) == SliceOf(MakeAvailable(ReconciledOne(s, m, now), now), m)
  }

  // ----- The order of the queue -----

  function Created(rows: map<Key, Row>, k: Key): Time {
    if k in rows then rows[k].created else 0
  }

  /** Older rows first, upserts before deletes of one time; the rest of the order is left open. */
  function QueueOrder(rows: map<Key, Row>): (Key, Key) -> bool {
    (a: Key, b: Key) =>
      Created(rows, a) < Created(rows, b) || (Created(rows, a) == Created(rows, b) && (a.Upsert? || b.Delete?))
  }

  function AvailableKeys(s: Outbox, now: Time): set<Key> {
    set k | k in s.rows && Available(s.rows[k], now)
  }

  datatype FailOutcome = Retry | Dead | LostLease

  class OutboxRepository {
    var memories: map<MemoryId, Memory>
    var memberships: map<MemoryId, Membership>
    var rows: map<Key, Row>

    ghost function State(): Outbox
      reads this
    {
      Outbox(memories, memberships, rows)
    }

    method EnqueueIndex(m: MemoryId, op: Mutation, now: Time)
      requires m in memories
      modifies this
      ensures State() == Enqueue(old(State()), m, op, now)
    {
      memories := memories[m := memories[m].(hash := memories[m].projection)];
      var k := if op == ToUpsert then Upsert(m, memories[m].hash) else Delete(m);
      if m in memberships {
        var existing := memberships[m];
        if op == ToUpsert && existing.hash == memories[m].hash && (existing.status == Indexed || existing.status == Failed) {
          return;
        }
        if op == ToDelete && existing.status == Deleted {
          return;
        }
      }
      memberships := memberships[m := Membership(memories[m].hash, Wanted)];
      rows := map j | j in rows :: if Superseded(j, k, rows[j]) then Retire(rows[j]) else rows[j];
      if k !in rows {
        rows := rows[k := NewRow(now)];
      }
    }

    /** Queues one mutation for a memory whose rows are still those of s. */
    method EnqueueSlice(m: MemoryId, op: Mutation, now: Time, ghost s: Outbox)
      requires m in s.memories && SliceOf(State(), m) == SliceOf(s, m)
      modifies this
      ensures SliceOf(State(), m) == SliceOf(Enqueue(s, m, op, now), m)
      ensures forall n :: n != m ==> SliceOf(State(), n) == SliceOf(old(State()), n)
    {
      ghost var t := State();
      SliceMeans(t, s, m);
      EnqueueIndex(m, op, now);
      EnqueueReadsSlice(t, s, m, op, now);
      forall n | n != m ensures SliceOf(State(), n) == SliceOf(t, n) {
        EnqueueIsLocal(t, m, op, now, n);
      }
    }

    /** Queues one mutation for each memory of a set. */
    method EnqueueAll(all: set<MemoryId>, op: Mutation, now: Time)
      requires all <= memories.Keys
      modifies this
      ensures forall m :: m !in all ==> SliceOf(State(), m) == SliceOf(old(State()), m)
      ensures forall m :: m in all ==> SliceOf(State(), m) == SliceOf(Enqueue(old(State()), m, op, now), m)
    {
      ghost var s := State();
      var todo := all;
      while todo != {}
        invariant todo <= all
        invariant forall m :: m !in all || m in todo ==> SliceOf(State(), m) == SliceOf(s, m)
        invariant forall m :: m in all && m !in todo ==> SliceOf(State(), m) == SliceOf(Enqueue(s, m, op, now), m)
        decreases |todo|
      {
        var m :| m in todo;
        EnqueueSlice(m, op, now, s);
        todo := todo - {m};
      }
    }

    /**
     * reconcileIndexRevision, for a collection that is writable: the active memories, then the
     * stale ones, then the waiting rows; returns how many rows are new.
     */
    method Reconcile(now: Time) returns (added: int)
      modifies this
      ensures Reconciled(old(State()), State(), now)
      ensures added == |rows| - |old(rows)|
    {
      var before := |rows|;
      ghost var s := State();
      var active := set m | m in memories && memories[m].active;
      EnqueueAll(active, ToUpsert, now);
      StaleAfterActive(s, State(), active, now);
      ghost var t1 := State();
      var stale := set m | m in memories && m in memberships && !memories[m].active && memberships[m].status != Deleted;
      assert forall m :: m in stale <==> Stale(s, m);
      EnqueueAll(stale, ToDelete, now);
      ghost var t := State();
      rows := map k | k in rows ::
        if rows[k].status == Pending && rows[k].nextAttempt > now then rows[k].(nextAttempt := now) else rows[k];
      forall m ensures SliceOf(State(), m) == SliceOf(MakeAvailable(ReconciledOne(s, m, now), now), m) {
        if m in stale {
          SliceMeans(t1, s, m);
          EnqueueReadsSlice(t1, s, m, ToDelete, now);
        }
        CatchupReadsSlice(t, ReconciledOne(s, m, now), m, now);
      }
      added := |rows| - before;
    }

    /**
     * claimIndexOutbox: expired leases are taken back, then the oldest available rows are leased to
     * the worker, if the collection may be written now.
     */
    method ClaimBatch(w: WorkerId, limit: int, now: Time, leaseMs: int, writable: bool) returns (keys: seq<Key>)
      modifies this
      ensures Claimable(old(State()), keys, now)
      ensures State() == Claim(old(State()), keys, w, now, now + Max(1000, leaseMs))
      ensures var s := ResetExpired(old(State()), now);
              if writable then Front(QueueOrder(s.rows), AvailableKeys(s, now), keys, Min(500, Max(1, limit)))
              else keys == []
    {
      rows := map k | k in rows :: if Expired(rows[k], now) then Unclaimed(rows[k]) else rows[k];
      assert State() == ResetExpired(old(State()), now);
      keys := [];
      if writable {
        var available := set k | k in rows && Available(rows[k], now);
        keys := Select(QueueOrder(rows), available, Min(500, Max(1, limit)));
        assert available == AvailableKeys(State(), now);
      }
      rows := map k | k in rows :: if k in keys then Claimed(rows[k], w, now + Max(1000, leaseMs)) else rows[k];
    }

    method CompleteRow(k: Key, w: WorkerId, now: Time) returns (done: bool)
      modifies this
      ensures done == Holds(old(State()), k, w, now)
      ensures State() == Complete(old(State()), k, w, now)
    {
      if k !in rows || rows[k].status != Processing || rows[k].owner != Some(w) || rows[k].expires.None? || rows[k].expires.value <= now {
        return false;
      }
      var m := k.memory;
      rows := rows[k := Finished(rows[k], Completed, rows[k].nextAttempt)];
      if m in memberships {
        memberships := memberships[m := if k.Upsert? then Membership(k.hash, Indexed) else Membership(memberships[m].hash, Deleted)];
      }
      done := true;
    }

    method FailRow(k: Key, w: WorkerId, f: Fault, now: Time) returns (outcome: FailOutcome)
      modifies this
      ensures outcome == (if !Holds(old(State()), k, w, now) then LostLease else if Dies(old(rows)[k], f) then Dead else Retry)
      ensures State() == Fail(old(State()), k, w, f, now)
    {
      if k !in rows || rows[k].status != Processing || rows[k].owner != Some(w) || rows[k].expires.None? || rows[k].expires.value <= now {
        return LostLease;
      }
      var m := k.memory;
      var dead := !f.retryable || rows[k].attempts >= f.maxAttempts;
      rows := rows[k := Finished(rows[k], if dead then DeadLetter else Pending, if dead then now else f.retryAt)];
      if m in memberships {
        memberships := memberships[m := Membership(memberships[m].hash, if dead then Failed else Wanted)];
      }
      outcome := if dead then Dead else Retry;
    }

    /** The memberships of these rows wait again. */
    method AwaitAgain(dead: set<Key>)
      modifies this`memberships
      ensures memberships == map m | m in old(memberships) ::
                if exists k <- dead :: k.memory == m then Membership(old(memberships)[m].hash, Wanted) else old(memberships)[m]
    {
      var left := dead;
      while left != {}
        invariant left <= dead && memberships.Keys == old(memberships).Keys
        invariant forall m :: m in memberships ==>
                    memberships[m] == if exists k <- dead - left :: k.memory == m
                                      then Membership(old(memberships)[m].hash, Wanted) else old(memberships)[m]
        decreases |left|
      {
        var k :| k in left;
        if k.memory in memberships {
          memberships := memberships[k.memory := Membership(memberships[k.memory].hash, Wanted)];
        }
        assert dead - (left - {k}) == (dead - left) + {k};
        left := left - {k};
      }
      assert dead - left == dead;
    }

    method RetryDeadLetters(now: Time) returns (changes: nat)
      modifies this
      ensures State() == RetryDead(old(State()), now)
      ensures changes == |WithStatus(old(State()), DeadLetter)|
    {
      var dead := set k | k in rows && rows[k].status == DeadLetter;
      assert dead == WithStatus(State(), DeadLetter);
      changes := |dead|;
      rows := map k | k in rows ::
        if rows[k].status == DeadLetter then Row(Pending, 0, now, rows[k].created, None, None) else rows[k];
      AwaitAgain(dead);
      assert forall m :: HasDead(old(State()), m) <==> exists k <- dead :: k.memory == m;
    }

    method Validate() returns (v: Snapshot)
      ensures v == Validation(State())
    {
      v := Snapshot(set m | m in memories && memories[m].active && (m !in memberships || memberships[m].status != Indexed),
                    set m | m in memories && memories[m].active && m in memberships && memberships[m].status == Indexed
                            && memberships[m].hash != memories[m].hash,
                    set m | m in memories && !memories[m].active && m in memberships && memberships[m].status != Deleted,
                    |set k | k in rows && rows[k].status == Pending|,
                    |set k | k in rows && rows[k].status == Processing|,
                    |set k | k in rows && rows[k].status == DeadLetter|);
    }
  }

  /** Queueing the active memories does not change which memories are stale. */
  lemma StaleAfterActive(s: Outbox, t: Outbox, active: set<MemoryId>, now: Time)
    requires forall m :: m in active <==> m in s.memories && s.memories[m].active
    requires forall m :: m !in active ==> SliceOf(t, m) == SliceOf(s, m)
    requires forall m :: m in active ==> SliceOf(t, m) == SliceOf(Enqueue(s, m, ToUpsert, now), m)
    ensures forall m :: Stale(t, m) <==> Stale(s, m)
  {
    forall m ensures Stale(t, m) <==> Stale(s, m) {
      if m in active {
        SliceMeans(t, Enqueue(s, m, ToUpsert, now), m);
      } else {
        SliceMeans(t, s, m);
      }
    }
  }
}
