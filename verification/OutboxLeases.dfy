/**
 * Lease exclusion: any number of workers claim, complete and fail outbox rows
 * (src/memory/memory-repository.ts), and every success belongs to the latest claim of its row.
 */
module OutboxLeases {
  import opened Wrappers
  import opened OutboxModel

  datatype Call =
    | ClaimCall(keys: seq<Key>, worker: WorkerId, now: Time, expires: Time)
    | CompleteCall(key: Key, worker: WorkerId, now: Time)
    | FailCall(key: Key, worker: WorkerId, fault: Fault, now: Time)
    | EnqueueCall(id: MemoryId, op: Mutation, now: Time)
    | CatchupCall(now: Time)
    | RetryCall(now: Time)

  /** What a call did to the lease of one row. */
  datatype Trace = Took(key: Key, worker: WorkerId, now: Time, expires: Time) | Ended(key: Key, worker: WorkerId, now: Time)

  ghost predicate Possible(s: Outbox, c: Call) {
    match c
    case ClaimCall(keys, _, now, _) => Claimable(s, keys, now)
    case EnqueueCall(m, _, _) => m in s.memories
    case _ => true
  }

  ghost function Apply(s: Outbox, c: Call): Outbox
    requires Possible(s, c)
  {
    match c
    case ClaimCall(keys, w, now, expires) => Claim(s, keys, w, now, expires)
    case CompleteCall(k, w, now) => Complete(s, k, w, now)
    case FailCall(k, w, fault, now) => Fail(s, k, w, fault, now)
    case EnqueueCall(m, op, now) => Enqueue(s, m, op, now)
    case CatchupCall(now) => MakeAvailable(s, now)
    case RetryCall(now) => RetryDead(s, now)
  }

  /** The trace a call leaves about row k. */
  ghost function Left(s: Outbox, c: Call, k: Key): seq<Trace> {
    match c
    case ClaimCall(keys, w, now, expires) => if k in keys then [Took(k, w, now, expires)] else []
    case CompleteCall(key, w, now) => if key == k && Holds(s, key, w, now) then [Ended(k, w, now)] else []
    case FailCall(key, w, _, now) => if key == k && Holds(s, key, w, now) then [Ended(k, w, now)] else []
    case _ => []
  }

  ghost predicate IsRun(s: Outbox, calls: seq<Call>)
    decreases |calls|
  {
    |calls| == 0 || (Possible(s, calls[0]) && IsRun(Apply(s, calls[0]), calls[1..]))
  }

  ghost function Run(s: Outbox, calls: seq<Call>): Outbox
    requires IsRun(s, calls)
    decreases |calls|
  {
    if |calls| == 0 then s else Run(Apply(s, calls[0]), calls[1..])
  }

  /** Everything that happened to the lease of row k, in order. */
  ghost function History(s: Outbox, calls: seq<Call>, k: Key): seq<Trace>
    requires IsRun(s, calls)
    decreases |calls|
  {
    if |calls| == 0 then [] else Left(s, calls[0], k) + History(Apply(s, calls[0]), calls[1..], k)
  }

  // ----- Ownership -----

  /** A row has an owner and an expiry exactly while it is processing. */
  predicate Owned(r: Row) {
    (r.status == Processing <==> r.owner.Some?) && (r.owner.Some? <==> r.expires.Some?)
  }

  ghost predicate AllOwned(s: Outbox) {
    forall k :: k in s.rows ==> Owned(s.rows[k])
  }

  lemma ApplyKeepsOwned(s: Outbox, c: Call)
    requires AllOwned(s) && Possible(s, c)
    ensures AllOwned(Apply(s, c))
  {
    var t := Apply(s, c);
    forall k | k in t.rows ensures Owned(t.rows[k]) {
      if k in s.rows {
        assert Owned(s.rows[k]);
      }
    }
  }

  lemma {:induction false} RunKeepsOwned(s: Outbox, calls: seq<Call>)
    requires AllOwned(s) && IsRun(s, calls)
    ensures AllOwned(Run(s, calls))
    decreases |calls|
  {
    if |calls| > 0 {
      ApplyKeepsOwned(s, calls[0]);
      RunKeepsOwned(Apply(s, calls[0]), calls[1..]);
    }
  }

  // ----- The lease protocol of one row -----

  type Lease = Option<Trace>

  /** A claim starts a lease and a success ends it. */
  function After(e: Trace): Lease {
    if e.Took? then Some(e) else None
  }

  /** A success needs the lease, before it runs out; a claim needs that there is none, or that it has run out. */
  predicate Allowed(lease: Lease, e: Trace) {
    match e
    case Ended(k, w, now) => lease.Some? && lease.value.Took? && lease.value.worker == w && now < lease.value.expires
    case Took(k, w, now, _) => lease.Some? && lease.value.Took? ==> lease.value.expires <= now
  }

  ghost predicate Exclusive(lease: Lease, h: seq<Trace>)
    decreases |h|
  {
    |h| == 0 || (Allowed(lease, h[0]) && Exclusive(After(h[0]), h[1..]))
  }

  /** The row records the lease, or the lease ran out before it was taken back. */
  ghost predicate Tracks(s: Outbox, k: Key, lease: Lease, clock: Time) {
    if k in s.rows && s.rows[k].status == Processing
    then lease.Some? && lease.value.Took? && s.rows[k].owner == Some(lease.value.worker) && s.rows[k].expires == Some(lease.value.expires)
    else lease.Some? && lease.value.Took? ==> lease.value.expires <= clock
  }

  /** The clock never goes back. */
  predicate Timely(calls: seq<Call>, clock: Time) {
    |calls| == 0 || (clock <= calls[0].now && Timely(calls[1..], calls[0].now))
  }

  ghost function LeaseAfter(lease: Lease, h: seq<Trace>): Lease {
    if |h| == 0 then lease else After(h[|h| - 1])
  }

  lemma ApplyTracks(s: Outbox, c: Call, k: Key, lease: Lease, clock: Time)
    requires Possible(s, c) && Tracks(s, k, lease, clock) && clock <= c.now
    ensures Tracks(Apply(s, c), k, LeaseAfter(lease, Left(s, c, k)), c.now)
    ensures Exclusive(lease, Left(s, c, k))
  {
  }

  lemma ExclusiveAppend(lease: Lease, g: seq<Trace>, h: seq<Trace>)
    requires |g| <= 1 && Exclusive(lease, g) && Exclusive(LeaseAfter(lease, g), h)
    ensures Exclusive(lease, g + h)
  {
    if |g| == 0 {
      assert g + h == h;
    } else {
      assert (g + h)[1..] == h;
    }
  }

  lemma {:induction false} RunIsExclusive(s: Outbox, calls: seq<Call>, k: Key, lease: Lease, clock: Time)
    requires IsRun(s, calls) && Timely(calls, clock) && Tracks(s, k, lease, clock)
    ensures Exclusive(lease, History(s, calls, k))
    decreases |calls|
  {
    if |calls| > 0 {
      var c := calls[0];
      ApplyTracks(s, c, k, lease, clock);
      RunIsExclusive(Apply(s, c), calls[1..], k, LeaseAfter(lease, Left(s, c, k)), c.now);
      ExclusiveAppend(lease, Left(s, c, k), History(Apply(s, c), calls[1..], k));
    }
  }

  /**
   * A success follows directly on the claim it completes, which is by the same worker and has not
   * run out; a claim that follows directly on another finds that one run out.
   */
  ghost predicate ProperAt(h: seq<Trace>, i: nat)
    requires i < |h|
  {
    match h[i]
    case Ended(_, w, now) => i > 0 && h[i - 1].Took? && h[i - 1].worker == w && now < h[i - 1].expires
    case Took(_, _, now, _) => i > 0 && h[i - 1].Took? ==> h[i - 1].expires <= now
  }

  lemma {:induction false} ExclusiveMeans(lease: Lease, h: seq<Trace>, i: nat)
    requires Exclusive(lease, h) && i < |h| && (lease.None? || i > 0)
    ensures ProperAt(h, i)
    decreases i
  {
    if i == 1 {
      assert h[1..][0] == h[1] && Allowed(After(h[0]), h[1]);
    } else if i > 1 {
      ExclusiveMeans(After(h[0]), h[1..], i - 1);
      assert ProperAt(h[1..], i - 1);
    }
  }

  /**
   * Main result: over any calls of any workers with a clock that never goes back, every success on
   * a row is by the worker of its latest claim before that lease expires, each claim has at most
   * one success, and rows have an owner exactly while they are processing.
   */
  lemma LeasesExclude(s: Outbox, calls: seq<Call>, k: Key, clock: Time)
    requires AllOwned(s) && IsRun(s, calls) && Timely(calls, clock)
    requires k in s.rows ==> s.rows[k].status != Processing
    ensures forall i :: 0 <= i < |History(s, calls, k)| ==> ProperAt(History(s, calls, k), i)
    ensures AllOwned(Run(s, calls))
  {
    RunIsExclusive(s, calls, k, None, clock);
    var h := History(s, calls, k);
    forall i | 0 <= i < |h| ensures ProperAt(h, i) {
      ExclusiveMeans(None, h, i);
    }
    RunKeepsOwned(s, calls);
  }
}
