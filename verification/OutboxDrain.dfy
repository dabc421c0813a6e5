/**
 * What becomes of a queued index mutation once the outbox is drained: the exact condition under which
 * the membership ends as the mutation asked for.
 */
module OutboxDrain {
  import opened Wrappers
  import opened OutboxModel
  import opened OutboxSafety
  import Leases = OutboxLeases

  // ----- Draining -----

  /** Nothing is written or queued for the memory any more, and none of its items fails for good. */
  ghost predicate Healthy(s: System, e: Event, m: MemoryId)
    requires Enabled(s, e)
  {
    match e
    case CanonicalWrite(id, _) => id != m
    case EnqueueIndex(id, _, _) => id != m
    case RetryDeadLetters(_) => false
    case FinishItem(fault, _) =>
      var k := s.flight.group[s.flight.cursor];
      k.memory == m && !s.flight.good[s.flight.cursor] && k in s.box.rows ==> !Dies(s.box.rows[k], fault)
    case _ => true
  }

  ghost predicate HealthyRun(s: System, events: seq<Event>, m: MemoryId)
    requires IsRun(s, events)
    decreases |events|
  {
    |events| == 0 || (Healthy(s, events[0], m) && HealthyRun(Next(s, events[0]), events[1..], m))
  }

  function TimeOf(e: Event): Option<Time> {
    match e
    case EnqueueIndex(_, _, now) => Some(now)
    case Catchup(now) => Some(now)
    case RetryDeadLetters(now) => Some(now)
    case ClaimBatch(_, _, _, now, _) => Some(now)
    case FinishItem(_, now) => Some(now)
    case _ => None
  }

  /** The clock never goes back. */
  predicate Forward(events: seq<Event>, clock: Time)
    decreases |events|
  {
    |events| == 0 ||
    match TimeOf(events[0])
    case None => Forward(events[1..], clock)
    case Some(now) => clock <= now && Forward(events[1..], now)
  }

  predicate AllAt(events: seq<Event>, now: Time) {
    forall i :: 0 <= i < |events| ==> TimeOf(events[i]) == None || TimeOf(events[i]) == Some(now)
  }

  lemma {:induction false} AllAtIsForward(events: seq<Event>, now: Time, clock: Time)
    requires AllAt(events, now) && clock <= now
    ensures Forward(events, clock)
    decreases |events|
  {
    if |events| > 0 {
      assert TimeOf(events[0]) == None || TimeOf(events[0]) == Some(now);
      AllAtIsForward(events[1..], now, if TimeOf(events[0]) == None then clock else now);
    }
  }

  /** The memory's work is done. */
  ghost predicate Drains(s: System, events: seq<Event>, m: MemoryId, clock: Time) {
    IsRun(s, events) && HealthyRun(s, events, m) && Forward(events, clock) && !HasOutstanding(Run(s, events).box, m)
  }

  lemma {:induction false} RunConcat(s: System, xs: seq<Event>, ys: seq<Event>, m: MemoryId)
    requires IsRun(s, xs) && IsRun(Run(s, xs), ys)
    ensures IsRun(s, xs + ys) && Run(s, xs + ys) == Run(Run(s, xs), ys)
    ensures HealthyRun(s, xs, m) && HealthyRun(Run(s, xs), ys, m) ==> HealthyRun(s, xs + ys, m)
    decreases |xs|
  {
    if |xs| == 0 {
      assert xs + ys == ys;
    } else {
      assert (xs + ys)[0] == xs[0] && (xs + ys)[1..] == xs[1..] + ys;
      RunConcat(Next(s, xs[0]), xs[1..], ys, m);
    }
  }

  // ----- Only the queued row is left -----

  /** The membership is what the row asks for. */
  predicate Fulfils(s: Outbox, k: Key) {
    && k.memory in s.memberships
    && match k
       case Upsert(_, hash) => s.memberships[k.memory] == Membership(hash, Indexed)
       case Delete(_) => s.memberships[k.memory].status == Deleted
  }

  /** No other row of the memory is open, and either this one is or it has been carried out. */
  ghost predicate OnlyLeft(s: Outbox, k: Key) {
    && (forall j :: j in s.rows && j.memory == k.memory && Outstanding(s.rows[j]) ==> j == k)
    && ((k in s.rows && Outstanding(s.rows[k])) || Fulfils(s, k))
  }

  /** A change that leaves the memory's membership alone and its rows open or closed as they were. */
  ghost predicate LeavesAlone(s: Outbox, t: Outbox, m: MemoryId) {
    && (m in s.memberships ==> m in t.memberships && t.memberships[m] == s.memberships[m])
    && (forall j :: j in t.rows && j.memory == m && Outstanding(t.rows[j]) ==> j in s.rows && Outstanding(s.rows[j]))
    && (forall j :: j in s.rows && j.memory == m && Outstanding(s.rows[j]) ==> j in t.rows && Outstanding(t.rows[j]))
  }

  lemma AloneKeepsOnlyLeft(s: Outbox, t: Outbox, k: Key)
    requires OnlyLeft(s, k) && LeavesAlone(s, t, k.memory)
    ensures OnlyLeft(t, k)
  {
  }

  lemma HealthyKeepsOnlyLeft(s: System, e: Event, k: Key)
    requires Inv(s) && Enabled(s, e) && Healthy(s, e, k.memory) && OnlyLeft(s.box, k)
    ensures OnlyLeft(Next(s, e).box, k)
  {
    match e
    case CanonicalWrite(_, _) => AloneKeepsOnlyLeft(s.box, Next(s, e).box, k);
    case EnqueueIndex(_, _, _) => AloneKeepsOnlyLeft(s.box, Next(s, e).box, k);
    case Catchup(_) => AloneKeepsOnlyLeft(s.box, Next(s, e).box, k);
    case RetryDeadLetters(_) =>
    case ClaimBatch(_, _, _, _, _) => AloneKeepsOnlyLeft(s.box, Next(s, e).box, k);
    case WriteGroup(_, _) =>
    case FinishItem(fault, now) =>
      var f := s.flight;
      var j := f.group[f.cursor];
      assert Remaining(f)[0] == j;
      ReportKeepsOnlyLeft(s.box, j, f.good[f.cursor], f.worker, fault, now, k);
    case Crash =>
  }

  lemma ReportKeepsOnlyLeft(s: Outbox, j: Key, good: bool, w: WorkerId, fault: Fault, now: Time, k: Key)
    requires OnlyLeft(s, k) && j in s.rows && s.rows[j].status == Processing
    requires forall i :: i in s.rows ==> i.memory in s.memberships
    requires j.memory == k.memory && !good ==> !Dies(s.rows[j], fault)
    ensures OnlyLeft(Report(s, j, good, w, fault, now), k)
  {
    ReportFrame(s, j, good, w, fault, now);
    if j.memory != k.memory {
      AloneKeepsOnlyLeft(s, Report(s, j, good, w, fault, now), k);
    } else {
      assert j == k;
    }
  }

  lemma {:induction false} OnlyLeftIsCarriedOut(s: System, events: seq<Event>, k: Key)
    requires Inv(s) && OnlyLeft(s.box, k) && IsRun(s, events) && HealthyRun(s, events, k.memory)
    ensures OnlyLeft(Run(s, events).box, k)
    decreases |events|
  {
    if |events| > 0 {
      NextKeepsInv(s, events[0]);
      HealthyKeepsOnlyLeft(s, events[0], k);
      OnlyLeftIsCarriedOut(Next(s, events[0]), events[1..], k);
    }
  }

  // ----- Carrying out one row -----

  /** An open row can be claimed at this time: it is due, or its lease has run out and it is due. */
  predicate Due(r: Row, now: Time) {
    Outstanding(r) ==> r.nextAttempt <= now && (r.status == Processing ==> r.expires.Some? && r.expires.value <= now)
  }

  ghost predicate AllDue(s: Outbox, now: Time) {
    forall k :: k in s.rows ==> Due(s.rows[k], now)
  }

  lemma {:induction false} DueSometime(s: Outbox, keys: set<Key>, clock: Time) returns (now: Time)
    requires Leases.AllOwned(s) && keys <= s.rows.Keys
    ensures clock <= now && forall k :: k in keys ==> Due(s.rows[k], now)
    decreases |keys|
  {
    if keys == {} {
      now := clock;
    } else {
      var k :| k in keys;
      var before := DueSometime(s, keys - {k}, clock);
      var r := s.rows[k];
      assert Leases.Owned(r);
      var expiry := if r.expires.Some? then r.expires.value else before;
      now := if before < r.nextAttempt then r.nextAttempt else before;
      now := if now < expiry then expiry else now;
      forall j | j in keys ensures Due(s.rows[j], now) {
        if j != k {
          assert j in keys - {k} && Due(s.rows[j], before);
        }
      }
    }
  }

  function Put(index: Index, k: Key): Index {
    match k
    case Upsert(m, hash) => index[m := hash]
    case Delete(m) => index - {m}
  }

  function ClaimOne(k: Key, now: Time): Event {
    if k.Upsert? then ClaimBatch("w", [k], [], now, now + 1000) else ClaimBatch("w", [], [k], now, now + 1000)
  }

  /** The row is claimed, written and completed. */
  function OneRow(k: Key, now: Time, index: Index): seq<Event> {
    [ClaimOne(k, now), WriteGroup(Put(index, k), [true]), FinishItem(Fault(true, now, 5), now)]
  }

  function Outcome(s: Outbox, k: Key): Membership {
    match k
    case Upsert(_, hash) => Membership(hash, Indexed)
    case Delete(_) => Membership(MembershipHash(s, k.memory), Deleted)
  }

  /** One row more is completed, and the others are as open as they were. */
  ghost predicate RowDone(s: System, t: System, k: Key, now: Time) {
    && t.flight.Idle? && t.box.memories == s.box.memories && t.box.rows.Keys == s.box.rows.Keys
    && t.box.memberships == s.box.memberships[k.memory := Outcome(s.box, k)]
    && k in t.box.rows && t.box.rows[k].status == Completed
    && forall j :: j in s.box.rows && j != k ==> t.box.rows[j] == ResetExpired(s.box, now).rows[j]
  }

  lemma OneClaimable(s: Outbox, k: Key, now: Time)
    requires k in s.rows && Outstanding(s.rows[k]) && Due(s.rows[k], now)
    ensures Claimable(s, [k], now)
  {
  }

  lemma OneClaimed(s: Outbox, k: Key, now: Time)
    requires k in s.rows
    ensures var t := Claim(s, [k], "w", now, now + 1000);
            && t.memories == s.memories && t.memberships == s.memberships && t.rows.Keys == s.rows.Keys
            && Holds(t, k, "w", now)
            && forall j :: j in s.rows && j != k ==> t.rows[j] == ResetExpired(s, now).rows[j]
  {
  }

  lemma ClaimsOne(s: System, k: Key, now: Time)
    requires s.flight.Idle? && k in s.box.rows && Outstanding(s.box.rows[k]) && Due(s.box.rows[k], now)
    ensures Enabled(s, ClaimOne(k, now))
    ensures var t := Next(s, ClaimOne(k, now));
            && t.flight == Waiting("w", [k], []) && t.index == s.index && t.box.memories == s.box.memories
            && t.box.memberships == s.box.memberships && t.box.rows.Keys == s.box.rows.Keys
            && Holds(t.box, k, "w", now)
            && forall j :: j in s.box.rows && j != k ==> t.box.rows[j] == ResetExpired(s.box, now).rows[j]
  {
    assert [k] + [] == [k] && [] + [k] == [k];
    OneClaimable(s.box, k, now);
    OneClaimed(s.box, k, now);
  }

  lemma WritesOne(s: System, k: Key)
    requires s.flight == Waiting("w", [k], [])
    ensures Enabled(s, WriteGroup(Put(s.index, k), [true]))
  {
    assert Touches([k], k.memory) by {
      assert [k][0].memory == k.memory;
    }
  }

  lemma RunOfThree(s: System, a: Event, b: Event, c: Event, m: MemoryId)
    requires Enabled(s, a) && Enabled(Next(s, a), b) && Enabled(Next(Next(s, a), b), c)
    requires Healthy(s, a, m) && Healthy(Next(s, a), b, m) && Healthy(Next(Next(s, a), b), c, m)
    ensures IsRun(s, [a, b, c]) && HealthyRun(s, [a, b, c], m) && Run(s, [a, b, c]) == Next(Next(Next(s, a), b), c)
  {
    var t, u := Next(s, a), Next(Next(s, a), b);
    assert [a, b, c][1..] == [b, c] && [b, c][1..] == [c] && [c][1..] == [];
    assert IsRun(Next(u, c), []) && Run(Next(u, c), []) == Next(u, c) && HealthyRun(Next(u, c), [], m);
    assert IsRun(u, [c]) && Run(u, [c]) == Next(u, c) && HealthyRun(u, [c], m);
    assert IsRun(t, [b, c]) && Run(t, [b, c]) == Next(u, c) && HealthyRun(t, [b, c], m);
  }

  /** However a row is left over, some worker can carry it out. */
  lemma RowCarriedOut(s: System, k: Key, now: Time, m: MemoryId)
    requires s.flight.Idle? && k in s.box.rows && Outstanding(s.box.rows[k]) && Due(s.box.rows[k], now)
    requires k.memory in s.box.memberships
    ensures var events := OneRow(k, now, s.index);
            && IsRun(s, events) && HealthyRun(s, events, m) && AllAt(events, now)
            && RowDone(s, Run(s, events), k, now)
  {
    var events := OneRow(k, now, s.index);
    ClaimsOne(s, k, now);
    var t := Next(s, events[0]);
    WritesOne(t, k);
    var u := Next(t, events[1]);
    assert Holds(u.box, k, "w", now);
    RunOfThree(s, events[0], events[1], events[2], m);
    assert events == [events[0], events[1], events[2]];
  }

  // ----- Carrying out several -----

  /** The rows of a set are closed, and the others are as open as they were. */
  ghost predicate AllDone(s: Outbox, t: Outbox, keys: set<Key>) {
    && t.memories == s.memories && t.rows.Keys == s.rows.Keys
    && (forall k :: k in keys && k in s.rows ==> !Outstanding(t.rows[k]))
    && (forall k :: k in s.rows && k !in keys ==> (Outstanding(t.rows[k]) <==> Outstanding(s.rows[k])))
  }

  lemma DoneStaysDue(s: System, t: System, k: Key, now: Time)
    requires RowDone(s, t, k, now) && AllDue(s.box, now)
    ensures AllDue(t.box, now)
    ensures AllDone(s.box, t.box, {k})
  {
    forall j | j in t.box.rows ensures Due(t.box.rows[j], now) {
      assert Due(s.box.rows[j], now);
    }
  }

  lemma DoneThenMore(s: Outbox, t: Outbox, u: Outbox, k: Key, keys: set<Key>)
    requires AllDone(s, t, {k}) && AllDone(t, u, keys - {k}) && k in keys
    requires k in s.rows && Outstanding(s.rows[k])
    ensures AllDone(s, u, keys)
  {
    forall j | j in keys && j in s.rows ensures !Outstanding(u.rows[j]) {
      assert j == k || j in keys - {k};
    }
    forall j | j in s.rows && j !in keys ensures Outstanding(u.rows[j]) <==> Outstanding(s.rows[j]) {
      assert j !in keys - {k} && j !in {k};
    }
  }

  /** Open rows of one idle system can be carried out in any order. */
  lemma {:induction false} RowsCarriedOut(s: System, keys: set<Key>, now: Time, m: MemoryId) returns (events: seq<Event>)
    requires Inv(s) && s.flight.Idle? && AllDue(s.box, now)
    requires forall k :: k in keys ==> k in s.box.rows && Outstanding(s.box.rows[k])
    ensures IsRun(s, events) && HealthyRun(s, events, m) && AllAt(events, now)
    ensures var t := Run(s, events); Inv(t) && t.flight.Idle? && AllDue(t.box, now) && AllDone(s.box, t.box, keys)
    decreases |keys|
  {
    if keys == {} {
      events := [];
    } else {
      var k :| k in keys;
      var first := OneRow(k, now, s.index);
      RowCarriedOut(s, k, now, m);
      var t := Run(s, first);
      RunKeepsInv(s, first);
      DoneStaysDue(s, t, k, now);
      var rest := RowsCarriedOut(t, keys - {k}, now, m);
      RunConcat(s, first, rest, m);
      DoneThenMore(s.box, t.box, Run(t, rest).box, k, keys);
      events := first + rest;
    }
  }

  // ----- When a queued mutation is carried out -----

  /** The memory's rows that are open. */
  function Open(s: Outbox, m: MemoryId): set<Key> {
    set k | k in s.rows && k.memory == m && Outstanding(s.rows[k])
  }

  /** Before the call the row is new or open, and every other open row of the memory is one the call supersedes. */
  ghost predicate Sure(s: Outbox, k: Key) {
    && (k !in s.rows || Outstanding(s.rows[k]))
    && forall j :: j in s.rows && j.memory == k.memory && j != k && Outstanding(s.rows[j]) ==> Superseded(j, k, s.rows[j])
  }

  lemma SureLeavesOne(s: Outbox, m: MemoryId, op: Mutation, now: Time)
    requires m in s.memories && !Settled(RefreshHash(s, m), KeyFor(s, m, op))
    ensures var k, t := KeyFor(s, m, op), Enqueue(s, m, op, now);
            && (Sure(s, k) <==> Open(t, m) == {k}) && (Sure(s, k) ==> OnlyLeft(t, k))
            && m in t.memberships && t.memberships[m].status == Wanted
  {
    var k, t := KeyFor(s, m, op), Enqueue(s, m, op, now);
    forall j | j in t.rows && j != k
      ensures j in s.rows && (Outstanding(t.rows[j]) <==> Outstanding(s.rows[j]) && !Superseded(j, k, s.rows[j]))
    {
    }
    assert k in Open(t, m) <==> k !in s.rows || Outstanding(s.rows[k]);
    if Sure(s, k) {
      assert forall j :: j in Open(t, m) ==> j == k;
    } else if k in Open(t, m) {
      var j :| j in s.rows && j.memory == k.memory && j != k && Outstanding(s.rows[j]) && !Superseded(j, k, s.rows[j]);
      assert j in Open(t, m);
    }
  }

  /** After a crash the open rows of a memory can be drained so that one of them comes last. */
  lemma DrainedWithLast(s: System, m: MemoryId, clock: Time, last: Key) returns (events: seq<Event>)
    requires Inv(s) && Leases.AllOwned(s.box) && last in Open(s.box, m)
    ensures Drains(s, events, m, clock)
    ensures var t := Run(s, events).box; m in t.memberships && exists u :: t.memberships[m] == Outcome(u, last)
  {
    var now := DueSometime(s.box, s.box.rows.Keys, clock);
    var idle := s.(flight := Idle);
    assert idle == Next(s, Crash) && Run(s, [Crash]) == idle;
    NextKeepsInv(s, Crash);
    var others := Open(s.box, m) - {last};
    var rest := RowsCarriedOut(idle, others, now, m);
    var t := Run(idle, rest);
    RowCarriedOut(t, last, now, m);
    var one := OneRow(last, now, t.index);
    RunConcat(idle, rest, one, m);
    RunConcat(s, [Crash], rest + one, m);
    events := [Crash] + (rest + one);
    AllAtIsForward(events, now, clock);
    LastLeavesNothing(s.box, t, Run(t, one), m, last, now);
    assert Run(t, one).box.memberships[m] == Outcome(t.box, last);
  }

  lemma LastLeavesNothing(s: Outbox, t: System, u: System, m: MemoryId, last: Key, now: Time)
    requires last in Open(s, m) && AllDone(s, t.box, Open(s, m) - {last}) && AllDue(t.box, now) && RowDone(t, u, last, now)
    ensures !HasOutstanding(u.box, m)
  {
    DoneStaysDue(t, u, last, now);
    forall k | k in u.box.rows && k.memory == m ensures !Outstanding(u.box.rows[k]) {
      assert k in Open(s, m) <==> Outstanding(s.rows[k]);
    }
  }

  /** A mutation that is not sure can be drained to something else. */
  lemma UnsureEndsElsewhere(s: System, m: MemoryId, op: Mutation, now: Time) returns (events: seq<Event>)
    requires Inv(s) && Leases.AllOwned(s.box) && m in s.box.memories
    requires !Settled(RefreshHash(s.box, m), KeyFor(s.box, m, op)) && !Sure(s.box, KeyFor(s.box, m, op))
    ensures var t := Next(s, EnqueueIndex(m, op, now));
            Drains(t, events, m, now) && !Fulfils(Run(t, events).box, KeyFor(s.box, m, op))
  {
    var k, t := KeyFor(s.box, m, op), Next(s, EnqueueIndex(m, op, now));
    NextKeepsInv(s, EnqueueIndex(m, op, now));
    SureLeavesOne(s.box, m, op, now);
    Leases.ApplyKeepsOwned(s.box, Leases.EnqueueCall(m, op, now));
    if Open(t.box, m) == {} {
      events := [];
      assert forall j :: j in t.box.rows && j.memory == m ==> j !in Open(t.box, m);
    } else {
      var last :| last in Open(t.box, m) && last != k;
      events := DrainedWithLast(t, m, now, last);
    }
  }

  /**
   * Main result: once a mutation is queued, every way of draining the memory's work, with crashes,
   * expired leases and retries, ends with the membership it asks for, if and only if its row is new
   * or open and no other row of the memory is left open beside it.
   */
  lemma CarriedOutExactly(s: System, m: MemoryId, op: Mutation, now: Time)
    requires Inv(s) && Leases.AllOwned(s.box) && m in s.box.memories
    requires !Settled(RefreshHash(s.box, m), KeyFor(s.box, m, op))
    ensures var k, t := KeyFor(s.box, m, op), Next(s, EnqueueIndex(m, op, now));
            (forall events :: Drains(t, events, m, now) ==> Fulfils(Run(t, events).box, k)) <==> Sure(s.box, k)
  {
    var k, t := KeyFor(s.box, m, op), Next(s, EnqueueIndex(m, op, now));
    if Sure(s.box, k) {
      SureLeavesOne(s.box, m, op, now);
      NextKeepsInv(s, EnqueueIndex(m, op, now));
      forall events | Drains(t, events, m, now) ensures Fulfils(Run(t, events).box, k) {
        OnlyLeftIsCarriedOut(t, events, k);
      }
    } else {
      var events := UnsureEndsElsewhere(s, m, op, now);
      assert Drains(t, events, m, now);
    }
  }

  /** Rows have an owner and an expiry exactly while they are processing. */
  lemma NextKeepsOwned(s: System, e: Event)
    requires Leases.AllOwned(s.box) && Enabled(s, e)
    ensures Leases.AllOwned(Next(s, e).box)
  {
    match e
    case EnqueueIndex(m, op, now) => Leases.ApplyKeepsOwned(s.box, Leases.EnqueueCall(m, op, now));
    case Catchup(now) => Leases.ApplyKeepsOwned(s.box, Leases.CatchupCall(now));
    case RetryDeadLetters(now) => Leases.ApplyKeepsOwned(s.box, Leases.RetryCall(now));
    case ClaimBatch(w, upserts, deletes, now, expires) =>
      Leases.ApplyKeepsOwned(s.box, Leases.ClaimCall(upserts + deletes, w, now, expires));
    case FinishItem(fault, now) =>
      var f := s.flight;
      Leases.ApplyKeepsOwned(s.box, if f.good[f.cursor] then Leases.CompleteCall(f.group[f.cursor], f.worker, now)
                                    else Leases.FailCall(f.group[f.cursor], f.worker, fault, now));
    case _ =>
  }

  /** So the result is about every state a single writer can reach. */
  lemma {:induction false} RunKeepsOwned(s: System, events: seq<Event>)
    requires Leases.AllOwned(s.box) && IsRun(s, events)
    ensures Leases.AllOwned(Run(s, events).box)
    decreases |events|
  {
    if |events| > 0 {
      NextKeepsOwned(s, events[0]);
      RunKeepsOwned(Next(s, events[0]), events[1..]);
    }
  }
}
