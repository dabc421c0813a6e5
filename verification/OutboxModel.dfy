/**
 * The index outbox of one collection (src/memory/memory-repository.ts): the canonical memories, the
 * work queue of index mutations and the memberships that say what the index should hold.
 *
 * Each function below is one transaction of the repository.  An outbox row is identified by the
 * columns its UNIQUE constraint covers; a delete row has one fixed label per memory.
 */
module OutboxModel {
  import opened Wrappers

  type MemoryId = string
  type Hash = string
  type WorkerId = string
  type Time = int

  /** A level 2 or 3 memory: projection is the hash of its current content, hash the stored column. */
  datatype Memory = Memory(active: bool, projection: Hash, hash: Hash)

  datatype MembershipStatus = Wanted | Indexed | Failed | Deleted
  datatype Membership = Membership(hash: Hash, status: MembershipStatus)

  datatype Key = Upsert(memory: MemoryId, hash: Hash) | Delete(memory: MemoryId)

  datatype RowStatus = Pending | Processing | Completed | DeadLetter
  datatype Row = Row(status: RowStatus, attempts: nat, nextAttempt: Time, created: Time,
                     owner: Option<WorkerId>, expires: Option<Time>)

  datatype Outbox = Outbox(
    memories: map<MemoryId, Memory>, memberships: map<MemoryId, Membership>, rows: map<Key, Row>)

  /** A row that some worker still has to deal with. */
  predicate Outstanding(r: Row) {
    r.status == Pending || r.status == Processing
  }

  // ----- enqueue -----

  /** The call changes nothing, because the membership already says what it would bring about. */
  predicate Settled(s: Outbox, k: Key)
    requires k.memory in s.memories
  {
    && k.memory in s.memberships
    && var current := s.memberships[k.memory];
    match k
    case Upsert(_, hash) => current.hash == hash && (current.status == Indexed || current.status == Failed)
    case Delete(_) => current.status == Deleted
  }

  /** Only queued upserts are superseded, by any delete and by an upsert of other content. */
  function Superseded(k: Key, newer: Key, r: Row): bool {
    k.memory == newer.memory && r.status == Pending && k.Upsert? && k != newer
  }

  function Retire(r: Row): Row {
    r.(status := Completed)
  }

  function NewRow(now: Time): Row {
    Row(Pending, 0, now, now, None, None)
  }

  /** INSERT OR IGNORE: a row that is already there is left as it is, whatever its status. */
  function InsertOrIgnore(rows: map<Key, Row>, k: Key, now: Time): map<Key, Row> {
    if k in rows then rows else rows[k := NewRow(now)]
  }

  function Supersede(rows: map<Key, Row>, newer: Key): map<Key, Row> {
    map k | k in rows :: if Superseded(k, newer, rows[k]) then Retire(rows[k]) else rows[k]
  }

  function RefreshHash(s: Outbox, m: MemoryId): Outbox
    requires m in s.memories
  {
    s.(memories := s.memories[m := s.memories[m].(hash := s.memories[m].projection)])
  }

  datatype Mutation = ToUpsert | ToDelete

  function KeyFor(s: Outbox, m: MemoryId, op: Mutation): Key
    requires m in s.memories
  {
    match op
    case ToUpsert => Upsert(m, s.memories[m].projection)
    case ToDelete => Delete(m)
  }

  function Enqueue(s: Outbox, m: MemoryId, op: Mutation, now: Time): Outbox
    requires m in s.memories
  {
    var k := KeyFor(s, m, op);
    var s' := RefreshHash(s, m);
    if Settled(s', k) then s'
    else
      s'.(memberships := s'.memberships[m := Membership(s'.memories[m].hash, Wanted)],
          rows := InsertOrIgnore(Supersede(s'.rows, k), k, now))
  }

  /** The last statement of a reconciliation: queued work is made available now. */
  function MakeAvailable(s: Outbox, now: Time): Outbox {
    s.(rows := map k | k in s.rows ::
         if s.rows[k].status == Pending && s.rows[k].nextAttempt > now then s.rows[k].(nextAttempt := now) else s.rows[k])
  }

  // ----- claim -----

  function Unclaimed(r: Row): Row {
    r.(status := Pending, owner := None, expires := None)
  }

  predicate Expired(r: Row, now: Time) {
    r.status == Processing && r.expires.Some? && r.expires.value <= now
  }

  function ResetExpired(s: Outbox, now: Time): Outbox {
    s.(rows := map k | k in s.rows :: if Expired(s.rows[k], now) then Unclaimed(s.rows[k]) else s.rows[k])
  }

  predicate Available(r: Row, now: Time) {
    r.status == Pending && r.nextAttempt <= now
  }

  function Claimed(r: Row, w: WorkerId, expires: Time): Row {
    r.(status := Processing, attempts := r.attempts + 1, owner := Some(w), expires := Some(expires))
  }

  /** Rows handed out by one claim: different, and all available once expired leases are reset. */
  ghost predicate Claimable(s: Outbox, keys: seq<Key>, now: Time) {
    && (forall i :: 0 <= i < |keys| ==> keys[i] in s.rows && Available(ResetExpired(s, now).rows[keys[i]], now))
    && (forall i, j :: 0 <= i < j < |keys| ==> keys[i] != keys[j])
  }

  function Claim(s: Outbox, keys: seq<Key>, w: WorkerId, now: Time, expires: Time): Outbox {
    var s' := ResetExpired(s, now);
    s'.(rows := map k | k in s'.rows :: if k in keys then Claimed(s'.rows[k], w, expires) else s'.rows[k])
  }

  // ----- complete, fail, retry -----

  /** The worker holds the row's lease at this time. */
  predicate Holds(s: Outbox, k: Key, w: WorkerId, now: Time) {
    && k in s.rows && s.rows[k].status == Processing && s.rows[k].owner == Some(w)
    && s.rows[k].expires.Some? && s.rows[k].expires.value > now
  }

  function Finished(r: Row, st: RowStatus, next: Time): Row {
    r.(status := st, nextAttempt := next, owner := None, expires := None)
  }

  function SetMembership(s: Outbox, m: MemoryId, b: Membership): map<MemoryId, Membership> {
    if m in s.memberships then s.memberships[m := b] else s.memberships
  }

  function MembershipHash(s: Outbox, m: MemoryId): Hash {
    if m in s.memberships then s.memberships[m].hash else ""
  }

  function Complete(s: Outbox, k: Key, w: WorkerId, now: Time): Outbox {
    if !Holds(s, k, w, now) then s
    else
      s.(rows := s.rows[k := Finished(s.rows[k], Completed, s.rows[k].nextAttempt)],
         memberships := SetMembership(s, k.memory,
           match k
           case Upsert(_, hash) => Membership(hash, Indexed)
           case Delete(_) => Membership(MembershipHash(s, k.memory), Deleted)))
  }

  datatype Fault = Fault(retryable: bool, retryAt: Time, maxAttempts: nat)

  predicate Dies(r: Row, f: Fault) {
    !f.retryable || r.attempts >= f.maxAttempts
  }

  function Fail(s: Outbox, k: Key, w: WorkerId, f: Fault, now: Time): Outbox {
    if !Holds(s, k, w, now) then s
    else
      var dead := Dies(s.rows[k], f);
      s.(rows := s.rows[k := Finished(s.rows[k], if dead then DeadLetter else Pending, if dead then now else f.retryAt)],
         memberships := SetMembership(s, k.memory, Membership(MembershipHash(s, k.memory), if dead then Failed else Wanted)))
  }

  ghost predicate HasDead(s: Outbox, m: MemoryId) {
    exists k :: k in s.rows && k.memory == m && s.rows[k].status == DeadLetter
  }

  ghost function RetryDead(s: Outbox, now: Time): Outbox {
    s.(rows := map k | k in s.rows ::
         if s.rows[k].status == DeadLetter then Row(Pending, 0, now, s.rows[k].created, None, None) else s.rows[k],
       memberships := map m | m in s.memberships ::
         if HasDead(s, m) then Membership(s.memberships[m].hash, Wanted) else s.memberships[m])
  }

  // ----- validation -----

  datatype Snapshot = Snapshot(
    missing: set<MemoryId>, mismatched: set<MemoryId>, stale: set<MemoryId>,
    pending: nat, processing: nat, dead: nat)

  predicate Missing(s: Outbox, m: MemoryId) {
    m in s.memories && s.memories[m].active && (m !in s.memberships || s.memberships[m].status != Indexed)
  }

  predicate Mismatched(s: Outbox, m: MemoryId) {
    m in s.memories && s.memories[m].active
    && m in s.memberships && s.memberships[m].status == Indexed && s.memberships[m].hash != s.memories[m].hash
  }

  predicate Stale(s: Outbox, m: MemoryId) {
    m in s.memories && !s.memories[m].active && m in s.memberships && s.memberships[m].status != Deleted
  }

  function WithStatus(s: Outbox, st: RowStatus): set<Key> {
    set k | k in s.rows && s.rows[k].status == st
  }

  function Validation(s: Outbox): Snapshot {
    Snapshot(set m | m in s.memories && Missing(s, m),
             set m | m in s.memories && Mismatched(s, m),
             set m | m in s.memories && Stale(s, m),
             |WithStatus(s, Pending)|, |WithStatus(s, Processing)|, |WithStatus(s, DeadLetter)|)
  }

  predicate Clean(v: Snapshot) {
    v.missing == {} && v.mismatched == {} && v.stale == {} && v.pending == 0 && v.processing == 0 && v.dead == 0
  }
}
