/** The worker's loops (src/memory/memory-index-worker.ts), proved to take the steps of OutboxSafety. */
module OutboxWorkers {
  import opened Wrappers
  import opened OutboxModel
  import opened OutboxSafety
  import opened OutboxRepositories
  import opened Ranking

  /**
   * What the world answers during one run: which writes the index accepts, what a refused write
   * leaves behind, which memories pass the durability check, the clock, and how failures are classed.
   */
  datatype World = World(
    accepts: Key -> bool, debris: Key -> Option<Hash>, verified: MemoryId -> bool,
    clock: nat -> Time, fault: Key -> Fault)

  datatype Tally = Tally(claimed: nat, indexed: nat, deleted: nat, retried: nat, deadLettered: nat, lostLeases: nat)

  function Accounted(t: Tally): nat {
    t.indexed + t.deleted + t.retried + t.deadLettered + t.lostLeases
  }

  /** The counter an item ends in. */
  datatype Fate = BecameIndexed | BecameDeleted | WillRetry | DiedHere | LeaseLost

  function FateOf(s: Outbox, k: Key, good: bool, w: WorkerId, fault: Fault, now: Time): Fate {
    if !Holds(s, k, w, now) then LeaseLost
    else if good then (if k.Upsert? then BecameIndexed else BecameDeleted)
    else if Dies(s.rows[k], fault) then DiedHere
    else WillRetry
  }

  function CountFate(t: Tally, fate: Fate): Tally {
    match fate
    case BecameIndexed => t.(indexed := t.indexed + 1)
    case BecameDeleted => t.(deleted := t.deleted + 1)
    case WillRetry => t.(retried := t.retried + 1)
    case DiedHere => t.(deadLettered := t.deadLettered + 1)
    case LeaseLost => t.(lostLeases := t.lostLeases + 1)
  }

  function CountAll(t: Tally, fates: seq<Fate>): Tally {
    if |fates| == 0 then t else CountFate(CountAll(t, fates[..|fates| - 1]), fates[|fates| - 1])
  }

  lemma CountOneMore(t: Tally, fates: seq<Fate>, fate: Fate)
    ensures CountAll(t, fates + [fate]) == CountFate(CountAll(t, fates), fate)
  {
    assert (fates + [fate])[..|fates|] == fates;
  }

  lemma {:induction false} CountAllAccounts(t: Tally, fates: seq<Fate>)
    ensures CountAll(t, fates).claimed == t.claimed && Accounted(CountAll(t, fates)) == Accounted(t) + |fates|
  {
    if |fates| > 0 {
      CountAllAccounts(t, fates[..|fates| - 1]);
    }
  }

  lemma {:induction false} CountAllConcat(t: Tally, fs: seq<Fate>, gs: seq<Fate>)
    ensures CountAll(t, fs + gs) == CountAll(CountAll(t, fs), gs)
    decreases |gs|
  {
    if |gs| == 0 {
      assert fs + gs == fs;
    } else {
      assert (fs + gs)[..|fs + gs| - 1] == fs + gs[..|gs| - 1];
      CountAllConcat(t, fs, gs[..|gs| - 1]);
    }
  }

  /** A fate, by the columns of the row: the lease, what was written, and what remains of the attempts. */
  lemma FateMeans(s: Outbox, k: Key, good: bool, w: WorkerId, fault: Fault, now: Time)
    ensures var held := k in s.rows && s.rows[k].status == Processing && s.rows[k].owner == Some(w)
                        && s.rows[k].expires.Some? && now < s.rows[k].expires.value;
            var fate := FateOf(s, k, good, w, fault, now);
            && (fate == LeaseLost <==> !held)
            && (fate == BecameIndexed <==> held && good && k.Upsert?) && (fate == BecameDeleted <==> held && good && k.Delete?)
            && (fate == DiedHere <==> held && !good && (!fault.retryable || s.rows[k].attempts >= fault.maxAttempts))
            && (fate == WillRetry <==> held && !good && fault.retryable && s.rows[k].attempts < fault.maxAttempts)
  {
  }

  /** Each counter counts the items of one fate. */
  lemma {:induction false} CountersMean(t: Tally, fates: seq<Fate>)
    ensures var c := CountAll(t, fates);
            && c.indexed == t.indexed + multiset(fates)[BecameIndexed] && c.deleted == t.deleted + multiset(fates)[BecameDeleted]
            && c.retried == t.retried + multiset(fates)[WillRetry] && c.deadLettered == t.deadLettered + multiset(fates)[DiedHere]
            && c.lostLeases == t.lostLeases + multiset(fates)[LeaseLost]
    decreases |fates|
  {
    if |fates| > 0 {
      var init := fates[..|fates| - 1];
      assert fates == init + [fates[|fates| - 1]];
      CountersMean(t, init);
    }
  }

  function Claims(n: nat): Tally {
    Tally(n, 0, 0, 0, 0, 0)
  }

  /** Every claimed item is counted once, for its fate. */
  ghost predicate Counted(t: Tally, fates: seq<Fate>) {
    t == CountAll(Claims(|fates|), fates) && t.claimed == Accounted(t) == |fates|
  }

  lemma BothCounted(n: nat, fs: seq<Fate>, gs: seq<Fate>)
    requires n == |fs| + |gs|
    ensures Counted(CountAll(CountAll(Claims(n), fs), gs), fs + gs)
    ensures CountAll(CountAll(Claims(n), fs), gs).claimed == n
  {
    CountAllConcat(Claims(n), fs, gs);
    CountAllAccounts(Claims(n), fs + gs);
  }

  /** The tables before each item of a group and after the last: each item is reported and meets its fate. */
  ghost predicate Reported(boxes: seq<Outbox>, group: seq<Key>, good: seq<bool>, w: WorkerId, world: World, fates: seq<Fate>) {
    && |boxes| == |fates| + 1 && |fates| <= |group| == |good|
    && forall i :: 0 <= i < |fates| ==>
         && boxes[i + 1] == Report(boxes[i], group[i], good[i], w, world.fault(group[i]), world.clock(i))
         && fates[i] == FateOf(boxes[i], group[i], good[i], w, world.fault(group[i]), world.clock(i))
  }

  lemma ReportedMore(boxes: seq<Outbox>, group: seq<Key>, good: seq<bool>, w: WorkerId, world: World, fates: seq<Fate>, t: Outbox, fate: Fate)
    requires Reported(boxes, group, good, w, world, fates) && |fates| < |group|
    requires t == Report(boxes[|fates|], group[|fates|], good[|fates|], w, world.fault(group[|fates|]), world.clock(|fates|))
    requires fate == FateOf(boxes[|fates|], group[|fates|], good[|fates|], w, world.fault(group[|fates|]), world.clock(|fates|))
    ensures Reported(boxes + [t], group, good, w, world, fates + [fate])
  {
  }

  /** The rows of one operation, in the order they were claimed. */
  function Only(keys: seq<Key>, upserts: bool): seq<Key> {
    if |keys| == 0 then []
    else
      var rest := Only(keys[..|keys| - 1], upserts);
      if keys[|keys| - 1].Upsert? == upserts then rest + [keys[|keys| - 1]] else rest
  }

  lemma {:induction false} OnlyKeeps(keys: seq<Key>, upserts: bool)
    requires forall i, j :: 0 <= i < j < |keys| ==> keys[i] != keys[j]
    ensures forall k :: k in Only(keys, upserts) <==> k in keys && k.Upsert? == upserts
    ensures forall i, j :: 0 <= i < j < |Only(keys, upserts)| ==> Only(keys, upserts)[i] != Only(keys, upserts)[j]
    ensures |Only(keys, true)| + |Only(keys, false)| == |keys|
  {
    if |keys| > 0 {
      OnlyKeeps(keys[..|keys| - 1], upserts);
      assert keys == keys[..|keys| - 1] + [keys[|keys| - 1]];
    }
  }

  lemma OnlySplits(keys: seq<Key>)
    requires forall i, j :: 0 <= i < j < |keys| ==> keys[i] != keys[j]
    ensures |Only(keys, true)| + |Only(keys, false)| == |keys|
    ensures forall k :: k in keys <==> k in Only(keys, true) || k in Only(keys, false)
    ensures (forall k :: k in Only(keys, true) ==> k.Upsert?) && (forall k :: k in Only(keys, false) ==> k.Delete?)
  {
    OnlyKeeps(keys, true);
    OnlyKeeps(keys, false);
  }

  /** Splitting a claim by operation claims the same rows. */
  lemma SplitClaim(s: Outbox, keys: seq<Key>, w: WorkerId, now: Time, expires: Time)
    requires Claimable(s, keys, now)
    ensures Claimable(s, Only(keys, true) + Only(keys, false), now)
    ensures Claim(s, Only(keys, true) + Only(keys, false), w, now, expires) == Claim(s, keys, w, now, expires)
  {
    OnlyKeeps(keys, true);
    OnlyKeeps(keys, false);
    var both := Only(keys, true) + Only(keys, false);
    assert forall k :: k in both <==> k in keys;
    forall i | 0 <= i < |both| ensures both[i] in s.rows && Available(ResetExpired(s, now).rows[both[i]], now) {
      assert both[i] in keys;
    }
  }

  lemma LastOfPrefix(group: seq<Key>, i: nat, j: nat)
    requires j < i < |group| && LastOf(group[..i + 1], j)
    ensures group[i].memory != group[j].memory && LastOf(group[..i], j)
  {
  }

  /** A group, the tables around each of its items, which writes were good, and what became of each item. */
  datatype Done = Done(group: seq<Key>, boxes: seq<Outbox>, good: seq<bool>, fates: seq<Fate>)

  /** All items of the group were reported, from one state of the tables to another. */
  ghost predicate Worked(s: Outbox, d: Done, t: Outbox, w: WorkerId, world: World) {
    && Reported(d.boxes, d.group, d.good, w, world, d.fates) && |d.fates| == |d.group|
    && d.boxes[0] == s && d.boxes[|d.group|] == t
  }

  lemma NothingWorked(s: Outbox, w: WorkerId, world: World)
    ensures Worked(s, Done([], [s], [], []), s, w, world)
  {
  }

  /** A claim, split by operation, keeps the invariant. */
  lemma SplitKeeps(s: System, keys: seq<Key>, w: WorkerId, now: Time, expires: Time, t: Outbox)
    requires Inv(s) && s.flight.Idle? && Claimable(s.box, keys, now) && t == Claim(s.box, keys, w, now, expires)
    ensures Inv(System(t, s.index, Start(w, Only(keys, true), Only(keys, false))))
  {
    SplitClaim(s.box, keys, w, now, expires);
    NextKeepsInv(s, ClaimBatch(w, Only(keys, true), Only(keys, false), now, expires));
  }

  /** A write is good only if it was accepted and verified, and the last one of a memory is good whenever it was. */
  ghost predicate JudgedBy(group: seq<Key>, good: seq<bool>, world: World) {
    && |good| == |group|
    && (forall i :: 0 <= i < |group| && good[i] ==> world.accepts(group[i]) && world.verified(group[i].memory))
    && (forall i :: 0 <= i < |group| && LastOf(group, i) && world.accepts(group[i]) && world.verified(group[i].memory) ==> good[i])
  }

  class MemoryIndexWorker {
    const repository: OutboxRepository
    const workerId: WorkerId
    const limit: int
    const leaseMs: int
    var index: Index

    constructor (repository: OutboxRepository, workerId: WorkerId, batchSize: int, leaseMs: int, index: Index)
      ensures this.repository == repository && this.workerId == workerId && this.index == index
      ensures this.limit == Min(500, Max(1, batchSize)) && this.leaseMs == Max(1000, leaseMs)
    {
      this.repository, this.workerId, this.index := repository, workerId, index;
      this.limit, this.leaseMs := Min(500, Max(1, batchSize)), Max(1000, leaseMs);
    }

    ghost function At(f: Flight): System
      reads this, repository
    {
      System(repository.State(), index, f)
    }

    /** One document of a batch write. */
    method WriteOne(k: Key, world: World)
      modifies this`index
      ensures forall m :: m != k.memory ==> SameAt(old(index), index, m)
      ensures world.accepts(k) ==> Reflects(index, k)
    {
      var m := k.memory;
      if world.accepts(k) {
        index := if k.Upsert? then index[m := k.hash] else index - {m};
      } else if world.debris(k).Some? {
        index := index[m := world.debris(k).value];
      } else {
        index := index - {m};
      }
    }

    /** A batch write, document by document, then the durability check of what was accepted. */
    method WriteBatch(group: seq<Key>, world: World) returns (good: seq<bool>)
      modifies this`index
      ensures GroupWritten(old(index), index, group, good) && JudgedBy(group, good, world)
      ensures forall i :: 0 <= i < |group| ==>
                (good[i] <==> world.accepts(group[i]) && world.verified(group[i].memory) && (group[i].Upsert? <==> group[i].memory in index))
    {
      for i := 0 to |group|
        invariant forall m :: !Touches(group[..i], m) ==> SameAt(old(index), index, m)
        invariant forall j :: 0 <= j < i && world.accepts(group[j]) && LastOf(group[..i], j) ==> Reflects(index, group[j])
      {
        ghost var before := index;
        WriteOne(group[i], world);
        forall j | 0 <= j < i && world.accepts(group[j]) && LastOf(group[..i + 1], j)
          ensures Reflects(index, group[j])
        {
          LastOfPrefix(group, i, j);
          assert SameAt(before, index, group[j].memory);
        }
        forall m | !Touches(group[..i + 1], m) ensures SameAt(old(index), index, m) {
          assert group[..i + 1][i].memory != m;
          assert forall j :: 0 <= j < i ==> group[..i][j] == group[..i + 1][j];
          assert !Touches(group[..i], m);
          assert SameAt(before, index, m);
        }
      }
      assert group[..|group|] == group;
      var present := index.Keys;
      good := seq(|group|, i requires 0 <= i < |group| =>
        world.accepts(group[i]) && world.verified(group[i].memory) && ((group[i].memory in present) == group[i].Upsert?));
    }

    /** Completes or fails one item and counts it. */
    method FinishOne(k: Key, good: bool, world: World, now: Time, tally: Tally) returns (t: Tally)
      modifies repository
      ensures repository.State() == Report(old(repository.State()), k, good, workerId, world.fault(k), now)
      ensures t == CountFate(tally, FateOf(old(repository.State()), k, good, workerId, world.fault(k), now))
    {
      if good {
        var done := repository.CompleteRow(k, workerId, now);
        if !done {
          t := tally.(lostLeases := tally.lostLeases + 1);
        } else if k.Upsert? {
          t := tally.(indexed := tally.indexed + 1);
        } else {
          t := tally.(deleted := tally.deleted + 1);
        }
      } else {
        var outcome := repository.FailRow(k, workerId, world.fault(k), now);
        match outcome
        case Retry => t := tally.(retried := tally.retried + 1);
        case Dead => t := tally.(deadLettered := tally.deadLettered + 1);
        case LostLease => t := tally.(lostLeases := tally.lostLeases + 1);
      }
    }

    /** processUpserts and processDeletes: write the group, then finish its items in order. */
    method ProcessGroup(group: seq<Key>, later: seq<Key>, world: World, tally: Tally) returns (t: Tally, ghost d: Done)
      requires group != [] && Inv(At(Waiting(workerId, group, later)))
      modifies this`index, repository
      ensures Inv(At(Start(workerId, later, [])))
      ensures d.group == group && GroupWritten(old(index), index, group, d.good) && JudgedBy(group, d.good, world)
      ensures Worked(old(repository.State()), d, repository.State(), workerId, world) && t == CountAll(tally, d.fates)
    {
      ghost var before := At(Waiting(workerId, group, later));
      var good := WriteBatch(group, world);
      ghost var written := index;
      NextKeepsInv(before, WriteGroup(index, good));
      t := tally;
      ghost var boxes, fates := [repository.State()], [];
      var i := 0;
      while i < |group|
        invariant 0 <= i <= |group| && |good| == |group| && index == written
        invariant Inv(At(if i < |group| then Finishing(workerId, group, good, i, later) else Start(workerId, later, [])))
        invariant Reported(boxes, group, good, workerId, world, fates) && |fates| == i
        invariant boxes[0] == old(repository.State()) && boxes[i] == repository.State() && t == CountAll(tally, fates)
      {
        ghost var s := At(Finishing(workerId, group, good, i, later));
        var now := world.clock(i);
        t := FinishOne(group[i], good[i], world, now, t);
        NextKeepsInv(s, FinishItem(world.fault(group[i]), now));
        ghost var fate := FateOf(s.box, group[i], good[i], workerId, world.fault(group[i]), now);
        ReportedMore(boxes, group, good, workerId, world, fates, repository.State(), fate);
        CountOneMore(tally, fates, fate);
        boxes, fates := boxes + [repository.State()], fates + [fate];
        i := i + 1;
      }
      d := Done(group, boxes, good, fates);
    }

    /** A group of a claim, if it has any rows. */
    method ProcessIfAny(group: seq<Key>, later: seq<Key>, world: World, tally: Tally) returns (t: Tally, ghost d: Done)
      requires Inv(At(Start(workerId, group, later)))
      modifies this`index, repository
      ensures Inv(At(Start(workerId, later, [])))
      ensures d.group == group && Worked(old(repository.State()), d, repository.State(), workerId, world) && JudgedBy(group, d.good, world)
      ensures t == CountAll(tally, d.fates)
    {
      if group == [] {
        NothingWorked(repository.State(), workerId, world);
        d := Done([], [repository.State()], [], []);
        t := tally;
      } else {
        t, d := ProcessGroup(group, later, world, tally);
      }
    }

    /** The front of the available rows of a writable collection, at most the worker's limit; nothing of any other. */
    ghost predicate ClaimedFront(s: Outbox, keys: seq<Key>, now: Time, writable: bool) {
      var reset := ResetExpired(s, now);
      && Claimable(s, keys, now)
      && if writable then Front(QueueOrder(reset.rows), AvailableKeys(reset, now), keys, Min(500, Max(1, limit))) else keys == []
    }

    /** Claims a batch and splits it by operation. */
    method ClaimNext(now: Time, writable: bool) returns (upserts: seq<Key>, deletes: seq<Key>, ghost keys: seq<Key>)
      requires Inv(At(Idle))
      modifies repository
      ensures Inv(At(Start(workerId, upserts, deletes)))
      ensures |upserts| + |deletes| <= 500 && ClaimedFront(old(repository.State()), keys, now, writable)
      ensures repository.State() == Claim(old(repository.State()), keys, workerId, now, now + Max(1000, leaseMs))
      ensures forall k :: k in keys <==> k in upserts || k in deletes
      ensures (forall k :: k in upserts ==> k.Upsert?) && (forall k :: k in deletes ==> k.Delete?)
    {
      ghost var s := At(Idle);
      var claimed := repository.ClaimBatch(workerId, limit, now, leaseMs, writable);
      upserts, deletes := Only(claimed, true), Only(claimed, false);
      keys := claimed;
      OnlySplits(keys);
      SplitKeeps(s, keys, workerId, now, now + Max(1000, leaseMs), repository.State());
    }

    /**
     * One run of the worker: the upserts and then the deletes of a claim are reported item by item,
     * each is counted once for what became of it, and the index still agrees with the memberships.
     */
    method RunOnce(now: Time, writable: bool, world: World)
      returns (t: Tally, ghost keys: seq<Key>, ghost claimed: Outbox, ghost between: Outbox, ghost ups: Done, ghost dels: Done)
      requires Inv(At(Idle))
      modifies this`index, repository
      ensures Inv(At(Idle))
      ensures ClaimedFront(old(repository.State()), keys, now, writable)
      ensures claimed == Claim(old(repository.State()), keys, workerId, now, now + Max(1000, leaseMs))
      ensures forall k :: k in keys <==> k in ups.group || k in dels.group
      ensures Leased(claimed, Start(workerId, ups.group, dels.group))
      ensures (forall k :: k in ups.group ==> k.Upsert?) && (forall k :: k in dels.group ==> k.Delete?)
      ensures Worked(claimed, ups, between, workerId, world) && Worked(between, dels, repository.State(), workerId, world)
      ensures JudgedBy(ups.group, ups.good, world) && JudgedBy(dels.group, dels.good, world)
      ensures Counted(t, ups.fates + dels.fates) && t.claimed <= 500
    {
      var upserts, deletes;
      upserts, deletes, keys := ClaimNext(now, writable);
      claimed := repository.State();
      ghost var n := |upserts| + |deletes|;
      t, ups := ProcessIfAny(upserts, deletes, world, Claims(|upserts| + |deletes|));
      between := repository.State();
      t, dels := ProcessIfAny(deletes, [], world, t);
      BothCounted(n, ups.fates, dels.fates);
    }
  }
}
