/**
 * One index writer working through the outbox (src/memory/memory-index-worker.ts) while canonical
 * writes go on: what the index holds whenever no work is outstanding.
 *
 * A batch is claimed, its upserts are written to the index together and finished one by one, then
 * its deletes.  Between any two of these steps the repository may change, a lease may run out, a
 * write may fail and the worker may crash.
 */
module OutboxSafety {
  import opened Wrappers
  import opened OutboxModel

  type Index = map<MemoryId, Hash>

  datatype Flight =
    | Idle
    | Waiting(worker: WorkerId, group: seq<Key>, later: seq<Key>)
    | Finishing(worker: WorkerId, group: seq<Key>, good: seq<bool>, cursor: nat, later: seq<Key>)

  datatype System = System(box: Outbox, index: Index, flight: Flight)

  datatype Event =
    | CanonicalWrite(id: MemoryId, memory: Memory)
    | EnqueueIndex(id: MemoryId, op: Mutation, now: Time)
    | Catchup(now: Time)
    | RetryDeadLetters(now: Time)
    | ClaimBatch(worker: WorkerId, upserts: seq<Key>, deletes: seq<Key>, now: Time, expires: Time)
    | WriteGroup(written: Index, good: seq<bool>)
    | FinishItem(fault: Fault, now: Time)
    | Crash

  /** The index holds what the row asks for. */
  predicate Reflects(index: Index, k: Key) {
    match k
    case Upsert(m, h) => m in index && index[m] == h
    case Delete(m) => m !in index
  }

  /** No later row of the group is about the same memory. */
  predicate LastOf(group: seq<Key>, i: nat)
    requires i < |group|
  {
    forall j :: i < j < |group| ==> group[j].memory != group[i].memory
  }

  ghost predicate Touches(group: seq<Key>, m: MemoryId) {
    exists i :: 0 <= i < |group| && group[i].memory == m
  }

  ghost predicate SameAt(a: Index, b: Index, m: MemoryId) {
    (m in a <==> m in b) && (m in a ==> a[m] == b[m])
  }

  /**
   * What a batch write promises: other memories are left alone, and the last write of a memory that
   * was reported good, and verified to be durable, is what the index holds.  A write that was not
   * reported good may have left anything behind.
   */
  ghost predicate GroupWritten(index: Index, written: Index, group: seq<Key>, good: seq<bool>) {
    && |good| == |group|
    && (forall m :: !Touches(group, m) ==> SameAt(index, written, m))
    && (forall i :: 0 <= i < |group| && good[i] && LastOf(group, i) ==> Reflects(written, group[i]))
  }

  ghost predicate Enabled(s: System, e: Event) {
    match e
    case CanonicalWrite(_, _) => true
    case EnqueueIndex(m, _, _) => m in s.box.memories
    case Catchup(_) => true
    case RetryDeadLetters(_) => true
    case ClaimBatch(_, upserts, deletes, now, _) => s.flight.Idle? && Claimable(s.box, upserts + deletes, now)
    case WriteGroup(written, good) => s.flight.Waiting? && GroupWritten(s.index, written, s.flight.group, good)
    case FinishItem(_, _) => s.flight.Finishing? && s.flight.cursor < |s.flight.group| && |s.flight.good| == |s.flight.group|
    case Crash => true
  }

  function Start(worker: WorkerId, group: seq<Key>, later: seq<Key>): Flight {
    if group != [] then Waiting(worker, group, later)
    else if later != [] then Waiting(worker, later, [])
    else Idle
  }

  function Advance(f: Flight): Flight
    requires f.Finishing?
  {
    if f.cursor + 1 < |f.group| then f.(cursor := f.cursor + 1) else Start(f.worker, f.later, [])
  }

  /** The report of one item to the repository. */
  function Report(s: Outbox, k: Key, good: bool, w: WorkerId, fault: Fault, now: Time): Outbox {
    if good then Complete(s, k, w, now) else Fail(s, k, w, fault, now)
  }

  ghost function Next(s: System, e: Event): System
    requires Enabled(s, e)
  {
    match e
    case CanonicalWrite(m, memory) => s.(box := s.box.(memories := s.box.memories[m := memory]))
    case EnqueueIndex(m, op, now) => s.(box := Enqueue(s.box, m, op, now))
    case Catchup(now) => s.(box := MakeAvailable(s.box, now))
    case RetryDeadLetters(now) => s.(box := RetryDead(s.box, now))
    case ClaimBatch(w, upserts, deletes, now, expires) =>
      s.(box := Claim(s.box, upserts + deletes, w, now, expires), flight := Start(w, upserts, deletes))
    case WriteGroup(written, good) =>
      s.(index := written, flight := Finishing(s.flight.worker, s.flight.group, good, 0, s.flight.later))
    case FinishItem(fault, now) =>
      var f := s.flight;
      s.(box := Report(s.box, f.group[f.cursor], f.good[f.cursor], f.worker, fault, now), flight := Advance(f))
    case Crash => s.(flight := Idle)
  }

  ghost predicate IsRun(s: System, events: seq<Event>)
    decreases |events|
  {
    |events| == 0 || (Enabled(s, events[0]) && IsRun(Next(s, events[0]), events[1..]))
  }

  ghost function Run(s: System, events: seq<Event>): System
    requires IsRun(s, events)
    decreases |events|
  {
    if |events| == 0 then s else Run(Next(s, events[0]), events[1..])
  }

  // ----- The invariant -----

  ghost predicate HasOutstanding(s: Outbox, m: MemoryId) {
    exists k :: k in s.rows && k.memory == m && Outstanding(s.rows[k])
  }

  /** With no work outstanding, a settled membership tells what the index holds. */
  ghost predicate Agrees(s: Outbox, index: Index, m: MemoryId) {
    !HasOutstanding(s, m) && m in s.memberships ==>
      && (s.memberships[m].status == Indexed ==> m in index && index[m] == s.memberships[m].hash)
      && (s.memberships[m].status == Deleted ==> m !in index)
  }

  /** Every row, and everything in the index, has a membership. */
  ghost predicate Tracked(s: Outbox, index: Index) {
    && (forall k :: k in s.rows ==> k.memory in s.memberships)
    && index.Keys <= s.memberships.Keys
  }

  /** The rows the worker still has to finish, in order. */
  function Remaining(f: Flight): seq<Key> {
    match f
    case Idle => []
    case Waiting(_, group, later) => group + later
    case Finishing(_, group, _, cursor, later) => (if cursor <= |group| then group[cursor..] else []) + later
  }

  /** The worker's rows are still processing under its name, whether or not its lease has run out. */
  ghost predicate Leased(s: Outbox, f: Flight) {
    && (forall i :: 0 <= i < |Remaining(f)| ==>
          Remaining(f)[i] in s.rows && s.rows[Remaining(f)[i]].status == Processing)
    && (forall i, j :: 0 <= i < j < |Remaining(f)| ==> Remaining(f)[i] != Remaining(f)[j])
  }

  /** What is left to finish of a written group is in the index. */
  ghost predicate WrittenHolds(index: Index, f: Flight) {
    && (f.Waiting? ==> f.group != [])
    && (f.Finishing? ==>
      && f.cursor < |f.group| && |f.good| == |f.group|
      && forall i :: f.cursor <= i < |f.group| && f.good[i] && LastOf(f.group, i) ==> Reflects(index, f.group[i]))
  }

  ghost predicate Inv(s: System) {
    && Tracked(s.box, s.index)
    && Leased(s.box, s.flight)
    && WrittenHolds(s.index, s.flight)
    && forall m :: Agrees(s.box, s.index, m)
  }

  /** A change of the tables that leaves processing rows and the index alone. */
  ghost predicate KeepsProcessing(s: Outbox, t: Outbox) {
    && s.memberships.Keys <= t.memberships.Keys
    && (forall k :: k in t.rows ==> k.memory in t.memberships)
    && (forall k :: k in s.rows && s.rows[k].status == Processing ==> k in t.rows && t.rows[k] == s.rows[k])
  }

  lemma LeaseKept(s: Outbox, t: Outbox, f: Flight)
    requires Leased(s, f) && KeepsProcessing(s, t)
    ensures Leased(t, f)
  {
  }

  /** A memory whose rows and membership did not change still agrees. */
  ghost predicate SameSlice(s: Outbox, t: Outbox, m: MemoryId) {
    && (m in s.memberships <==> m in t.memberships)
    && (m in s.memberships ==> s.memberships[m] == t.memberships[m])
    && (HasOutstanding(s, m) ==> HasOutstanding(t, m))
  }

  lemma AgreesKept(s: Outbox, t: Outbox, index: Index, m: MemoryId)
    requires Agrees(s, index, m) && SameSlice(s, t, m)
    ensures Agrees(t, index, m)
  {
  }

  lemma OutstandingKept(s: Outbox, t: Outbox, m: MemoryId)
    requires forall k :: k in s.rows && k.memory == m && Outstanding(s.rows[k]) ==> k in t.rows && Outstanding(t.rows[k])
    ensures HasOutstanding(s, m) ==> HasOutstanding(t, m)
  {
  }

  lemma EnqueueKeeps(s: Outbox, index: Index, m: MemoryId, op: Mutation, now: Time, n: MemoryId)
    requires m in s.memories && Tracked(s, index) && Agrees(s, index, n)
    ensures KeepsProcessing(s, Enqueue(s, m, op, now)) && Agrees(Enqueue(s, m, op, now), index, n)
  {
    var t := Enqueue(s, m, op, now);
    if n != m {
      OutstandingKept(s, t, n);
      AgreesKept(s, t, index, n);
    } else if Settled(RefreshHash(s, m), KeyFor(s, m, op)) {
      OutstandingKept(s, t, n);
      AgreesKept(s, t, index, n);
    }
  }

  lemma CatchupKeeps(s: Outbox, index: Index, now: Time, n: MemoryId)
    requires Tracked(s, index) && Agrees(s, index, n)
    ensures KeepsProcessing(s, MakeAvailable(s, now)) && Agrees(MakeAvailable(s, now), index, n)
  {
  }

  lemma RetryKeeps(s: Outbox, index: Index, now: Time, n: MemoryId)
    requires Tracked(s, index) && Agrees(s, index, n)
    ensures KeepsProcessing(s, RetryDead(s, now)) && Agrees(RetryDead(s, now), index, n)
  {
  }

  lemma ClaimKeeps(s: Outbox, index: Index, keys: seq<Key>, w: WorkerId, now: Time, expires: Time, n: MemoryId)
    requires Tracked(s, index) && Agrees(s, index, n) && Claimable(s, keys, now)
    ensures var t := Claim(s, keys, w, now, expires);
            && Tracked(t, index) && Agrees(t, index, n)
            && forall i :: 0 <= i < |keys| ==> keys[i] in t.rows && t.rows[keys[i]].status == Processing
  {
  }

  /** Items of the flight keep their memory outstanding. */
  lemma RemainingIsOutstanding(s: Outbox, f: Flight, i: nat)
    requires Leased(s, f) && i < |Remaining(f)|
    ensures HasOutstanding(s, Remaining(f)[i].memory)
  {
  }

  lemma WriteKeeps(s: System, written: Index, good: seq<bool>, n: MemoryId)
    requires Inv(s) && Enabled(s, WriteGroup(written, good))
    ensures Agrees(s.box, written, n) && (n in written ==> n in s.box.memberships)
  {
    var group := s.flight.group;
    if Touches(group, n) {
      var i :| 0 <= i < |group| && group[i].memory == n;
      assert Remaining(s.flight)[i] == group[i];
      RemainingIsOutstanding(s.box, s.flight, i);
    } else {
      assert SameAt(s.index, written, n);
      assert Agrees(s.box, s.index, n);
    }
  }

  /** Finishing the last outstanding item of a memory means nothing was written over it. */
  lemma LastToFinish(s: System, n: MemoryId, t: Outbox)
    requires Inv(s) && s.flight.Finishing? && n == s.flight.group[s.flight.cursor].memory
    requires !HasOutstanding(t, n)
    requires forall k :: k in s.box.rows && k != s.flight.group[s.flight.cursor] ==> k in t.rows && t.rows[k] == s.box.rows[k]
    ensures LastOf(s.flight.group, s.flight.cursor)
  {
    var f := s.flight;
    forall j | f.cursor < j < |f.group| ensures f.group[j].memory != n {
      var rest := Remaining(f);
      assert rest[0] == f.group[f.cursor] && rest[j - f.cursor] == f.group[j];
      assert rest[0] != rest[j - f.cursor];
      assert f.group[j] in t.rows && Outstanding(t.rows[f.group[j]]);
      assert HasOutstanding(t, f.group[j].memory);
    }
  }

  lemma ReportFrame(s: Outbox, k: Key, good: bool, w: WorkerId, fault: Fault, now: Time)
    requires forall j :: j in s.rows ==> j.memory in s.memberships
    ensures var t := Report(s, k, good, w, fault, now);
            && t.rows.Keys == s.rows.Keys && t.memberships.Keys == s.memberships.Keys
            && (forall j :: j in s.rows && j != k ==> t.rows[j] == s.rows[j])
            && (forall m :: m in s.memberships && m != k.memory ==> t.memberships[m] == s.memberships[m])
  {
  }

  lemma ReportKeepsOthers(s: Outbox, index: Index, k: Key, good: bool, w: WorkerId, fault: Fault, now: Time, n: MemoryId)
    requires Tracked(s, index) && Agrees(s, index, n) && n != k.memory
    ensures Agrees(Report(s, k, good, w, fault, now), index, n)
  {
  }

  lemma FinishKeeps(s: System, fault: Fault, now: Time, n: MemoryId)
    requires Inv(s) && Enabled(s, FinishItem(fault, now))
    ensures Agrees(Next(s, FinishItem(fault, now)).box, s.index, n)
  {
    var f := s.flight;
    var k := f.group[f.cursor];
    var t := Next(s, FinishItem(fault, now)).box;
    assert Agrees(s.box, s.index, n);
    ReportFrame(s.box, k, f.good[f.cursor], f.worker, fault, now);
    if n != k.memory {
      ReportKeepsOthers(s.box, s.index, k, f.good[f.cursor], f.worker, fault, now, n);
    } else if Holds(s.box, k, f.worker, now) && !HasOutstanding(t, n) {
      LastToFinish(s, n, t);
    }
  }

  lemma LeasedAfterFinish(s: System, fault: Fault, now: Time)
    requires Inv(s) && Enabled(s, FinishItem(fault, now))
    ensures Leased(Next(s, FinishItem(fault, now)).box, Advance(s.flight))
  {
    var f := s.flight;
    var rest, rest' := Remaining(f), Remaining(Advance(f));
    assert rest[0] == f.group[f.cursor];
    assert rest' == rest[1..];
    ReportFrame(s.box, rest[0], f.good[f.cursor], f.worker, fault, now);
    forall i | 0 <= i < |rest'| ensures rest'[i] == rest[i + 1] && rest'[i] != rest[0] {
    }
  }

  lemma NextKeepsInv(s: System, e: Event)
    requires Inv(s) && Enabled(s, e)
    ensures Inv(Next(s, e))
  {
    var t := Next(s, e);
    match e
    case CanonicalWrite(_, _) =>
      forall n ensures Agrees(t.box, t.index, n) {
        assert Agrees(s.box, s.index, n);
        AgreesKept(s.box, t.box, s.index, n);
      }
    case EnqueueIndex(m, op, now) =>
      forall n ensures Agrees(t.box, t.index, n) && KeepsProcessing(s.box, t.box) {
        EnqueueKeeps(s.box, s.index, m, op, now, n);
      }
      LeaseKept(s.box, t.box, s.flight);
    case Catchup(now) =>
      forall n ensures Agrees(t.box, t.index, n) && KeepsProcessing(s.box, t.box) {
        CatchupKeeps(s.box, s.index, now, n);
      }
      LeaseKept(s.box, t.box, s.flight);
    case RetryDeadLetters(now) =>
      forall n ensures Agrees(t.box, t.index, n) && KeepsProcessing(s.box, t.box) {
        RetryKeeps(s.box, s.index, now, n);
      }
      LeaseKept(s.box, t.box, s.flight);
    case ClaimBatch(w, upserts, deletes, now, expires) =>
      forall n ensures Agrees(t.box, t.index, n) && Tracked(t.box, t.index) {
        ClaimKeeps(s.box, s.index, upserts + deletes, w, now, expires, n);
      }
      ClaimKeeps(s.box, s.index, upserts + deletes, w, now, expires, "");
      assert Remaining(t.flight) == upserts + deletes;
    case WriteGroup(written, good) =>
      forall n ensures Agrees(t.box, t.index, n) && (n in written ==> n in s.box.memberships) {
        WriteKeeps(s, written, good, n);
      }
      assert Remaining(t.flight) == Remaining(s.flight);
    case FinishItem(fault, now) =>
      ReportFrame(s.box, s.flight.group[s.flight.cursor], s.flight.good[s.flight.cursor], s.flight.worker, fault, now);
      forall n ensures Agrees(t.box, t.index, n) {
        FinishKeeps(s, fault, now, n);
      }
      LeasedAfterFinish(s, fault, now);
    case Crash =>
  }

  /** Main result: the invariant holds in every state a single writer can reach. */
  lemma {:induction false} RunKeepsInv(s: System, events: seq<Event>)
    requires Inv(s) && IsRun(s, events)
    ensures Inv(Run(s, events))
    decreases |events|
  {
    if |events| > 0 {
      NextKeepsInv(s, events[0]);
      RunKeepsInv(Next(s, events[0]), events[1..]);
    }
  }

  // ----- A clean validation -----

  /** The hashes the index should hold: those of the active memories. */
  function ActiveHashes(s: Outbox): Index {
    map m | m in s.memories && s.memories[m].active :: s.memories[m].hash
  }

  /** The index without entries of anything but memories. */
  function MemoryPart(s: Outbox, index: Index): Index {
    map m | m in index && m in s.memories :: index[m]
  }

  lemma NothingOutstanding(s: Outbox, m: MemoryId)
    requires Clean(Validation(s))
    ensures !HasOutstanding(s, m)
  {
    assert WithStatus(s, Pending) == {} && WithStatus(s, Processing) == {};
    forall k | k in s.rows ensures !Outstanding(s.rows[k]) {
      assert k !in WithStatus(s, Pending) && k !in WithStatus(s, Processing);
    }
  }

  lemma CleanAt(s: System, m: MemoryId)
    requires Inv(s) && Clean(Validation(s.box)) && m in s.box.memories
    ensures m in s.index <==> s.box.memories[m].active
    ensures m in s.index ==> s.index[m] == s.box.memories[m].hash
  {
    var v := Validation(s.box);
    NothingOutstanding(s.box, m);
    assert Agrees(s.box, s.index, m);
    assert m !in v.missing && m !in v.mismatched && m !in v.stale;
  }

  /** Main result: a clean validation snapshot means the index holds exactly the active memories. */
  lemma CleanMeansEqual(s: System)
    requires Inv(s) && Clean(Validation(s.box))
    ensures MemoryPart(s.box, s.index) == ActiveHashes(s.box)
  {
    forall m | m in s.box.memories
      ensures m in s.index <==> s.box.memories[m].active
      ensures m in s.index ==> s.index[m] == s.box.memories[m].hash
    {
      CleanAt(s, m);
    }
  }

  const START: System := System(Outbox(map[], map[], map[]), map[], Idle)

  /** From an empty project, whatever happens. */
  lemma CleanRunMeansEqual(events: seq<Event>)
    requires IsRun(START, events)
    ensures Inv(Run(START, events))
    ensures Clean(Validation(Run(START, events).box)) ==>
              MemoryPart(Run(START, events).box, Run(START, events).index) == ActiveHashes(Run(START, events).box)
  {
    RunKeepsInv(START, events);
    if Clean(Validation(Run(START, events).box)) {
      CleanMeansEqual(Run(START, events));
    }
  }
}
