/**
 * The outbox need not converge. An older row that failed and is retried after a newer one completed
 * undoes it, and INSERT OR IGNORE does not revive the completed row when the mutation is queued again.
 */
module OutboxStuck {
  import opened Wrappers
  import opened OutboxModel
  import opened OutboxSafety
  import opened OutboxDrain

  /** Once a mutation is queued, no pending upsert of the memory is for anything else: none at all after a delete. */
  lemma NothingStaleIsQueued(s: Outbox, m: MemoryId, op: Mutation, now: Time, k: Key)
    requires m in s.memories && !Settled(RefreshHash(s, m), KeyFor(s, m, op))
    requires k in Enqueue(s, m, op, now).rows && k.memory == m && k.Upsert?
    ensures Enqueue(s, m, op, now).rows[k].status == Pending ==> op == ToUpsert && k.hash == s.memories[m].projection
    ensures k in s.rows && s.rows[k].status != Pending ==> Enqueue(s, m, op, now).rows[k] == s.rows[k]
  {
  }

  /** What a reconciliation queues for a memory. */
  function Wish(memory: Memory): Mutation {
    if memory.active then ToUpsert else ToDelete
  }

  /** The membership waits for a row that is done with, and nothing else is queued for the memory. */
  ghost predicate Stuck(s: Outbox, m: MemoryId) {
    && m in s.memories && s.memories[m].hash == s.memories[m].projection
    && m in s.memberships && s.memberships[m] == Membership(s.memories[m].hash, Wanted)
    && KeyFor(s, m, Wish(s.memories[m])) in s.rows
    && forall k :: k in s.rows && k.memory == m ==> s.rows[k].status == Completed
  }

  /** Events that do not change the memory itself and queue only what a reconciliation would. */
  predicate Leaves(e: Event, m: MemoryId, wish: Mutation) {
    match e
    case CanonicalWrite(id, _) => id != m
    case EnqueueIndex(id, op, _) => id == m ==> op == wish
    case _ => true
  }

  ghost predicate AllLeave(events: seq<Event>, m: MemoryId, wish: Mutation) {
    forall i :: 0 <= i < |events| ==> Leaves(events[i], m, wish)
  }

  lemma StuckEnqueue(s: Outbox, m: MemoryId, id: MemoryId, op: Mutation, now: Time)
    requires Stuck(s, m) && id in s.memories && (id == m ==> op == Wish(s.memories[m]))
    ensures Stuck(Enqueue(s, id, op, now), m)
    ensures m in Enqueue(s, id, op, now).memories && Enqueue(s, id, op, now).memories[m] == s.memories[m]
  {
  }

  lemma StuckNext(s: System, e: Event, m: MemoryId)
    requires Inv(s) && Enabled(s, e) && Stuck(s.box, m) && Leaves(e, m, Wish(s.box.memories[m]))
    ensures Stuck(Next(s, e).box, m) && Next(s, e).box.memories[m] == s.box.memories[m]
  {
    match e
    case CanonicalWrite(_, _) =>
    case EnqueueIndex(id, op, now) => StuckEnqueue(s.box, m, id, op, now);
    case Catchup(_) =>
    case RetryDeadLetters(_) =>
    case ClaimBatch(w, upserts, deletes, now, expires) =>
    case WriteGroup(_, _) =>
    case FinishItem(fault, now) =>
      var f := s.flight;
      var k := f.group[f.cursor];
      assert Remaining(f)[0] == k;
      assert k.memory != m;
      ReportFrame(s.box, k, f.good[f.cursor], f.worker, fault, now);
    case Crash =>
  }

  /**
   * However long the system runs, reconciles, retries dead letters and queues the memory again, an
   * active memory stays missing and another stays stale, and no validation is clean, until the
   * memory itself changes.
   */
  lemma {:induction false} StuckForGood(s: System, events: seq<Event>, m: MemoryId)
    requires Inv(s) && IsRun(s, events) && Stuck(s.box, m) && AllLeave(events, m, Wish(s.box.memories[m]))
    ensures var v := Validation(Run(s, events).box);
            (if s.box.memories[m].active then m in v.missing else m in v.stale) && !Clean(v)
    ensures Stuck(Run(s, events).box, m)
    decreases |events|
  {
    if |events| > 0 {
      NextKeepsInv(s, events[0]);
      assert Leaves(events[0], m, Wish(s.box.memories[m]));
      StuckNext(s, events[0], m);
      StuckForGood(Next(s, events[0]), events[1..], m);
    } else {
      assert Missing(s.box, m) || Stale(s.box, m);
    }
  }

  // ----- A run that gets there -----

  /** The memory's first content, claimed by a worker. */
  function FirstClaim(m: MemoryId, a: Hash): seq<Event> {
    [ CanonicalWrite(m, Memory(true, a, a)), EnqueueIndex(m, ToUpsert, 0), ClaimBatch("w", [Upsert(m, a)], [], 0, 1000) ]
  }

  /** Meanwhile the memory changes and is queued again; then the write of the first content fails and will be retried. */
  function FailsOnce(m: MemoryId, second: Memory, index: Index): seq<Event> {
    [ CanonicalWrite(m, second), EnqueueIndex(m, Wish(second), 1), WriteGroup(index, [false]), FinishItem(Fault(true, 10, 5), 2) ]
  }

  lemma RunOne(s: System, e: Event)
    requires Enabled(s, e)
    ensures IsRun(s, [e]) && Run(s, [e]) == Next(s, e)
  {
    assert [e][1..] == [] && IsRun(Next(s, e), []) && Run(Next(s, e), []) == Next(s, e);
  }

  lemma RunMore(s: System, events: seq<Event>, e: Event)
    requires IsRun(s, events) && Enabled(Run(s, events), e)
    ensures IsRun(s, events + [e]) && Run(s, events + [e]) == Next(Run(s, events), e)
  {
    RunOne(Run(s, events), e);
    RunConcat(s, events, [e], "");
  }

  /** Rows, membership and worker after the first claim. */
  lemma FirstClaimed(m: MemoryId, a: Hash)
    ensures var events, k := FirstClaim(m, a), Upsert(m, a);
            && IsRun(START, events)
            && Run(START, events) == Started(m, a)
  {
    var events, k := FirstClaim(m, a), Upsert(m, a);
    RunOne(START, events[0]);
    RunMore(START, [events[0]], events[1]);
    var s := Run(START, [events[0], events[1]]);
    assert [events[0]] + [events[1]] == [events[0], events[1]];
    assert s.box.rows == map[k := NewRow(0)];
    assert [k] + [] == [k];
    assert Claimable(s.box, [k], 0);
    RunMore(START, [events[0], events[1]], events[2]);
    assert [events[0], events[1]] + [events[2]] == events;
    assert Claim(s.box, [k], "w", 0, 1000).rows == map[k := Claimed(NewRow(0), "w", 1000)];
  }

  /** Both rows are open: the second at once, the first from time 10. */
  ghost predicate BothOpen(s: System, m: MemoryId, a: Hash, second: Memory) {
    && s.flight.Idle? && m in s.box.memories && s.box.memories[m] == second
    && s.box.memberships.Keys == {m} && s.box.rows.Keys == {Upsert(m, a), KeyFor(s.box, m, Wish(second))}
    && s.box.rows[KeyFor(s.box, m, Wish(second))] == NewRow(1)
    && s.box.rows[Upsert(m, a)].status == Pending && s.box.rows[Upsert(m, a)].nextAttempt == 10
  }

  function Started(m: MemoryId, a: Hash): System {
    System(Outbox(map[m := Memory(true, a, a)], map[m := Membership(a, Wanted)], map[Upsert(m, a) := Claimed(NewRow(0), "w", 1000)]),
           map[], Waiting("w", [Upsert(m, a)], []))
  }

  /** The newer mutation is queued while the first row is processing. */
  lemma QueuedMeanwhile(m: MemoryId, a: Hash, second: Memory)
    requires second.hash == second.projection && (second.active ==> second.projection != a)
    ensures var s := Started(m, a).box;
            var t := Enqueue(s.(memories := s.memories[m := second]), m, Wish(second), 1);
            && t.memories == map[m := second] && t.memberships == map[m := Membership(second.hash, Wanted)]
            && t.rows == map[Upsert(m, a) := Claimed(NewRow(0), "w", 1000), KeyFor(t, m, Wish(second)) := NewRow(1)]
  {
  }

  /** The failed item of the first claim waits for its retry. */
  lemma WriteFails(t: System, m: MemoryId, a: Hash)
    requires t.flight == Finishing("w", [Upsert(m, a)], [false], 0, []) && m in t.box.memberships
    requires Upsert(m, a) in t.box.rows && t.box.rows[Upsert(m, a)] == Claimed(NewRow(0), "w", 1000)
    ensures var u := Next(t, FinishItem(Fault(true, 10, 5), 2));
            && Enabled(t, FinishItem(Fault(true, 10, 5), 2)) && u.flight.Idle?
            && u.box.memories == t.box.memories && u.box.memberships.Keys == t.box.memberships.Keys
            && u.box.rows == t.box.rows[Upsert(m, a) := Finished(Claimed(NewRow(0), "w", 1000), Pending, 10)]
  {
  }

  lemma FailedOnce(s: System, m: MemoryId, a: Hash, second: Memory)
    requires second.hash == second.projection && (second.active ==> second.projection != a)
    requires s == Started(m, a)
    ensures var events := FailsOnce(m, second, map[]);
            IsRun(s, events) && BothOpen(Run(s, events), m, a, second)
  {
    var events := FailsOnce(m, second, map[]);
    RunOne(s, events[0]);
    RunMore(s, [events[0]], events[1]);
    assert [events[0]] + [events[1]] == [events[0], events[1]];
    QueuedMeanwhile(m, a, second);
    RunMore(s, [events[0], events[1]], events[2]);
    assert [events[0], events[1]] + [events[2]] == [events[0], events[1], events[2]];
    var t := Run(s, [events[0], events[1], events[2]]);
    WriteFails(t, m, a);
    RunMore(s, [events[0], events[1], events[2]], events[3]);
    assert [events[0], events[1], events[2]] + [events[3]] == events;
  }

  /** The second row is carried out, then the first, then the second mutation is queued again. */
  lemma RetriedLate(s: System, m: MemoryId, a: Hash, second: Memory) returns (events: seq<Event>)
    requires BothOpen(s, m, a, second) && second.hash == second.projection && (second.active ==> second.projection != a)
    ensures IsRun(s, events) && Stuck(Run(s, events).box, m) && Run(s, events).box.memories[m] == second
  {
    var k, late := KeyFor(s.box, m, Wish(second)), Upsert(m, a);
    var first := OneRow(k, 2, s.index);
    RowCarriedOut(s, k, 2, m);
    var t := Run(s, first);
    var again := OneRow(late, 10, t.index);
    RowCarriedOut(t, late, 10, m);
    var u := Run(t, again);
    RunConcat(s, first, again, m);
    assert u.box.rows.Keys == {late, k} && u.box.rows[late].status == Completed && u.box.rows[k].status == Completed;
    assert u.box.memberships[m] == Membership(a, Indexed);
    GetsStuck(u.box, m, a, second);
    RunMore(s, first + again, EnqueueIndex(m, Wish(second), 11));
    events := first + again + [EnqueueIndex(m, Wish(second), 11)];
  }

  /** The old content is indexed, both rows are completed, and the newer mutation is queued once more. */
  lemma GetsStuck(u: Outbox, m: MemoryId, a: Hash, second: Memory)
    requires m in u.memories && u.memories[m] == second && second.hash == second.projection
    requires second.active ==> second.projection != a
    requires u.rows.Keys == {Upsert(m, a), KeyFor(u, m, Wish(second))} && m in u.memberships
    requires u.rows[Upsert(m, a)].status == Completed && u.rows[KeyFor(u, m, Wish(second))].status == Completed
    requires u.memberships[m] == Membership(a, Indexed)
    ensures Stuck(Enqueue(u, m, Wish(second), 11), m) && Enqueue(u, m, Wish(second), 11).memories[m] == second
  {
    assert !Settled(RefreshHash(u, m), KeyFor(u, m, Wish(second)));
  }

  /**
   * Two contents of one memory, or one content and its removal, are enough: the empty project can
   * get stuck in every such way.
   */
  lemma EmptyProjectCanGetStuck(m: MemoryId, a: Hash, second: Memory) returns (events: seq<Event>)
    requires second.hash == second.projection && (second.active ==> second.projection != a)
    ensures IsRun(START, events) && Stuck(Run(START, events).box, m) && Run(START, events).box.memories[m] == second
  {
    FirstClaimed(m, a);
    var s := Run(START, FirstClaim(m, a));
    FailedOnce(s, m, a, second);
    var t := Run(s, FailsOnce(m, second, map[]));
    var rest := RetriedLate(t, m, a, second);
    RunConcat(s, FailsOnce(m, second, map[]), rest, m);
    RunConcat(START, FirstClaim(m, a), FailsOnce(m, second, map[]) + rest, m);
    events := FirstClaim(m, a) + (FailsOnce(m, second, map[]) + rest);
  }
}
