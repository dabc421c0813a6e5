/**
 * The knowledge outbox of one collection (src/memory/memory-repository.ts): unlike the memory
 * outbox, reconciliation revives completed rows, so it settles.
 */
module KnowledgeOutbox {
  import opened Wrappers
  import opened OutboxModel

  type DocumentId = string

  datatype Document = Document(active: bool, hash: Hash)
  datatype WorkKey = WorkKey(document: DocumentId, op: Mutation, hash: Hash)

  datatype Store = Store(
    documents: map<DocumentId, Document>, memberships: map<DocumentId, Membership>, work: map<WorkKey, Row>)

  // ----- reconcile -----

  function Wants(d: Document): Mutation {
    if d.active then ToUpsert else ToDelete
  }

  function StatusOf(op: Mutation): MembershipStatus {
    if op == ToUpsert then Indexed else Deleted
  }

  predicate ShouldEnqueue(s: Store, d: DocumentId)
    requires d in s.documents
  {
    || d !in s.memberships
    || s.memberships[d].hash != s.documents[d].hash
    || (s.memberships[d].status != Wanted && s.memberships[d].status != Failed
        && s.memberships[d].status != StatusOf(Wants(s.documents[d])))
  }

  function Due(s: Store): set<DocumentId> {
    set d | d in s.documents && ShouldEnqueue(s, d)
  }

  /** The row a reconciliation asks for. */
  function Target(s: Store, d: DocumentId): WorkKey
    requires d in s.documents
  {
    WorkKey(d, Wants(s.documents[d]), s.documents[d].hash)
  }

  /** ON CONFLICT: a row that is already there is revived, whatever its status, and its lease taken away. */
  function Revived(work: map<WorkKey, Row>, k: WorkKey, now: Time): Row {
    Row(Pending, 0, now, if k in work then work[k].created else now, None, None)
  }

  /** One document of the loop. */
  function EnqueueOne(s: Store, d: DocumentId, now: Time): Store
    requires d in s.documents
  {
    if !ShouldEnqueue(s, d) then s
    else
      s.(memberships := s.memberships[d := Membership(s.documents[d].hash, Wanted)],
         work := s.work[Target(s, d) := Revived(s.work, Target(s, d), now)])
  }

  function Promoted(r: Row, now: Time): Row {
    if r.status == Pending && r.nextAttempt > now then r.(nextAttempt := now) else r
  }

  /** The loop's effect on a set of documents, all at once. */
  function Enqueued(s: Store, ds: set<DocumentId>, now: Time): Store {
    var due := set d | d in ds && d in s.documents && ShouldEnqueue(s, d);
    var keys := set d | d in due :: Target(s, d);
    s.(memberships := map d | d in s.memberships.Keys + due ::
         if d in due then Membership(s.documents[d].hash, Wanted) else s.memberships[d],
       work := map k | k in s.work.Keys + keys :: if k in keys then Revived(s.work, k, now) else s.work[k])
  }

  lemma EnqueuedNone(s: Store, now: Time)
    ensures Enqueued(s, {}, now) == s
  {
  }

  lemma SameTarget(s: Store, ds: set<DocumentId>, d: DocumentId, now: Time)
    requires d in s.documents && d !in ds
    ensures var t := Enqueued(s, ds, now);
            && Target(t, d) == Target(s, d) && ShouldEnqueue(t, d) == ShouldEnqueue(s, d)
            && Revived(t.work, Target(s, d), now) == Revived(s.work, Target(s, d), now)
  {
  }

  /** The documents are handled one by one, and none changes what is done about another. */
  lemma EnqueuedOneMore(s: Store, ds: set<DocumentId>, d: DocumentId, now: Time)
    requires d in s.documents && d !in ds
    ensures Enqueued(s, ds + {d}, now) == EnqueueOne(Enqueued(s, ds, now), d, now)
    ensures ShouldEnqueue(Enqueued(s, ds, now), d) == ShouldEnqueue(s, d)
  {
    SameTarget(s, ds, d, now);
    EnqueuedMembers(s, ds, d, now);
    EnqueuedWork(s, ds, d, now);
  }

  lemma EnqueuedMembers(s: Store, ds: set<DocumentId>, d: DocumentId, now: Time)
    requires d in s.documents && d !in ds
    ensures Enqueued(s, ds + {d}, now).memberships
            == if ShouldEnqueue(s, d) then Enqueued(s, ds, now).memberships[d := Membership(s.documents[d].hash, Wanted)]
               else Enqueued(s, ds, now).memberships
  {
  }

  lemma EnqueuedWork(s: Store, ds: set<DocumentId>, d: DocumentId, now: Time)
    requires d in s.documents && d !in ds
    ensures Enqueued(s, ds + {d}, now).work
            == if ShouldEnqueue(s, d) then Enqueued(s, ds, now).work[Target(s, d) := Revived(s.work, Target(s, d), now)]
               else Enqueued(s, ds, now).work
  {
  }

  function Elements(order: seq<DocumentId>): set<DocumentId> {
    set d | d in order
  }

  /** The loop: one document after the other. */
  function EnqueueInTurn(s: Store, order: seq<DocumentId>, now: Time): Store
    requires forall d <- order :: d in s.documents
    ensures EnqueueInTurn(s, order, now).documents == s.documents
  {
    if |order| == 0 then s else EnqueueOne(EnqueueInTurn(s, order[..|order| - 1], now), order[|order| - 1], now)
  }

  function CountDue(s: Store, order: seq<DocumentId>): nat
    requires forall d <- order :: d in s.documents
  {
    if |order| == 0 then 0 else CountDue(s, order[..|order| - 1]) + (if ShouldEnqueue(s, order[|order| - 1]) then 1 else 0)
  }

  /** Whatever the order, the loop does what the set says and counts what was due. */
  lemma {:induction false} InTurnIsEnqueued(s: Store, order: seq<DocumentId>, now: Time)
    requires (forall d <- order :: d in s.documents) && Distinct(order)
    ensures EnqueueInTurn(s, order, now) == Enqueued(s, Elements(order), now)
    ensures CountDue(s, order) == |Due(s) * Elements(order)|
    decreases |order|
  {
    if |order| == 0 {
      EnqueuedNone(s, now);
      assert Elements(order) == {};
    } else {
      var init, d := order[..|order| - 1], order[|order| - 1];
      InTurnIsEnqueued(s, init, now);
      EnqueuedOneMore(s, Elements(init), d, now);
      SetOfPrefix(order);
      DueOneMore(s, Elements(init), d);
    }
  }

  lemma SetOfPrefix(order: seq<DocumentId>)
    requires |order| > 0
    ensures Elements(order) == Elements(order[..|order| - 1]) + {order[|order| - 1]}
  {
  }

  lemma DueOneMore(s: Store, ds: set<DocumentId>, d: DocumentId)
    requires d in s.documents && d !in ds
    ensures |Due(s) * (ds + {d})| == |Due(s) * ds| + (if ShouldEnqueue(s, d) then 1 else 0)
  {
    assert Due(s) * (ds + {d}) == if ShouldEnqueue(s, d) then Due(s) * ds + {d} else Due(s) * ds;
  }

  lemma InTurnDue(s: Store, order: seq<DocumentId>, d: DocumentId, now: Time)
    requires (forall x <- order :: x in s.documents) && d in s.documents && d !in order
    requires Distinct(order)
    ensures ShouldEnqueue(EnqueueInTurn(s, order, now), d) == ShouldEnqueue(s, d)
  {
  }

  /** reconcileSemanticIndexRevision: all documents, then whatever waits is made available. */
  function Reconcile(s: Store, now: Time): Store {
    PromoteAll(Enqueued(s, s.documents.Keys, now), now)
  }

  function PromoteAll(s: Store, now: Time): Store {
    s.(work := map k | k in s.work :: Promoted(s.work[k], now))
  }

  lemma DueIsOfDocuments(s: Store)
    ensures Due(s) * s.documents.Keys == Due(s)
  {
  }

  // ----- claim, complete, fail -----

  function ResetLeases(s: Store, now: Time): Store {
    s.(work := map k | k in s.work :: if Expired(s.work[k], now) then Unclaimed(s.work[k]) else s.work[k])
  }

  ghost predicate MayClaim(s: Store, keys: set<WorkKey>, now: Time) {
    forall k :: k in keys ==> k in s.work && Available(ResetLeases(s, now).work[k], now)
  }

  function ClaimWork(s: Store, keys: set<WorkKey>, w: WorkerId, now: Time, expires: Time): Store {
    var s' := ResetLeases(s, now);
    s'.(work := map k | k in s'.work :: if k in keys then Claimed(s'.work[k], w, expires) else s'.work[k])
  }

  predicate HoldsWork(s: Store, k: WorkKey, w: WorkerId, now: Time) {
    && k in s.work && s.work[k].status == Processing && s.work[k].owner == Some(w)
    && s.work[k].expires.Some? && s.work[k].expires.value > now
  }

  function SetStatus(s: Store, d: DocumentId, b: Membership): map<DocumentId, Membership> {
    if d in s.memberships then s.memberships[d := b] else s.memberships
  }

  function HashOf(s: Store, d: DocumentId): Hash {
    if d in s.memberships then s.memberships[d].hash else ""
  }

  function CompleteWork(s: Store, k: WorkKey, w: WorkerId, now: Time): Store {
    if !HoldsWork(s, k, w, now) then s
    else
      s.(work := s.work[k := Finished(s.work[k], Completed, s.work[k].nextAttempt)],
         memberships := SetStatus(s, k.document, Membership(k.hash, StatusOf(k.op))))
  }

  function FailWork(s: Store, k: WorkKey, w: WorkerId, retryAt: Time, dead: bool, now: Time): Store {
    if !HoldsWork(s, k, w, now) then s
    else
      s.(work := s.work[k := Finished(s.work[k], if dead then DeadLetter else Pending, retryAt)],
         memberships := SetStatus(s, k.document, Membership(HashOf(s, k.document), if dead then Failed else Wanted)))
  }

  // ----- Runs -----

  datatype Event =
    | WriteDocument(id: DocumentId, document: Document)
    | DoReconcile(now: Time)
    | DoClaim(keys: set<WorkKey>, worker: WorkerId, now: Time, expires: Time)
    | DoComplete(key: WorkKey, worker: WorkerId, now: Time)
    | DoFail(key: WorkKey, worker: WorkerId, retryAt: Time, dead: bool, now: Time)

  ghost predicate Possible(s: Store, e: Event) {
    e.DoClaim? ==> MayClaim(s, e.keys, e.now)
  }

  function Apply(s: Store, e: Event): Store {
    match e
    case WriteDocument(d, document) => s.(documents := s.documents[d := document])
    case DoReconcile(now) => Reconcile(s, now)
    case DoClaim(keys, w, now, expires) => ClaimWork(s, keys, w, now, expires)
    case DoComplete(k, w, now) => CompleteWork(s, k, w, now)
    case DoFail(k, w, retryAt, dead, now) => FailWork(s, k, w, retryAt, dead, now)
  }

  function Run(s: Store, events: seq<Event>): Store
    decreases |events|
  {
    if |events| == 0 then s else Run(Apply(s, events[0]), events[1..])
  }

  ghost predicate IsRun(s: Store, events: seq<Event>)
    decreases |events|
  {
    |events| == 0 || (Possible(s, events[0]) && IsRun(Apply(s, events[0]), events[1..]))
  }

  // ----- Work is never forgotten -----

  ghost predicate HasWork(s: Store, d: DocumentId) {
    exists k :: k in s.work && k.document == d && Outstanding(s.work[k])
  }

  /** A membership that waits has work, and all work belongs to a membership. */
  ghost predicate WaitsForWork(s: Store, d: DocumentId) {
    d in s.memberships && s.memberships[d].status == Wanted ==> HasWork(s, d)
  }

  ghost predicate Inv(s: Store) {
    && (forall d :: WaitsForWork(s, d))
    && (forall k :: k in s.work ==> k.document in s.memberships)
    && (forall k :: k in s.work ==> Leased(s.work[k]))
    && s.memberships.Keys <= s.documents.Keys
  }

  /** Exactly the processing rows have an owner and an expiry. */
  predicate Leased(r: Row) {
    (r.status == Processing <==> r.owner.Some?) && (r.owner.Some? <==> r.expires.Some?)
  }

  lemma WorkKept(s: Store, t: Store, d: DocumentId)
    requires forall k :: k in s.work && k.document == d && Outstanding(s.work[k]) ==> k in t.work && Outstanding(t.work[k])
    ensures HasWork(s, d) ==> HasWork(t, d)
  {
  }

  lemma ReconcileKeeps(s: Store, now: Time)
    requires Inv(s)
    ensures Inv(Reconcile(s, now))
  {
    var t := Reconcile(s, now);
    forall d ensures WaitsForWork(t, d) {
      assert WaitsForWork(s, d);
      WorkKept(s, t, d);
      if d in Due(s) {
        assert Target(s, d) in t.work && Outstanding(t.work[Target(s, d)]);
      }
    }
    forall k | k in t.work ensures Leased(t.work[k]) && k.document in t.memberships {
      if k in s.work {
        assert Leased(s.work[k]);
      }
    }
  }

  lemma ApplyKeeps(s: Store, e: Event)
    requires Inv(s) && Possible(s, e)
    ensures Inv(Apply(s, e))
  {
    var t := Apply(s, e);
    if e.DoReconcile? {
      ReconcileKeeps(s, e.now);
    } else {
      forall d ensures WaitsForWork(t, d) {
        assert WaitsForWork(s, d);
        if t.work == s.work || e.DoClaim? || e.key.document != d {
          WorkKept(s, t, d);
        } else if e.DoFail? && !e.dead {
          assert Outstanding(t.work[e.key]);
        }
      }
      forall k | k in t.work ensures Leased(t.work[k]) {
        assert Leased(s.work[k]);
      }
    }
  }

  /** A pending membership always has an outstanding row, in every reachable state. */
  lemma {:induction false} RunKeeps(s: Store, events: seq<Event>)
    requires Inv(s) && IsRun(s, events)
    ensures Inv(Run(s, events))
    decreases |events|
  {
    if |events| > 0 {
      ApplyKeeps(s, events[0]);
      RunKeeps(Apply(s, events[0]), events[1..]);
    }
  }

  // ----- Draining -----

  /** Nothing is outstanding. */
  ghost predicate Drained(s: Store) {
    forall k :: k in s.work ==> !Outstanding(s.work[k])
  }

  /** Claims and completions only: the documents do not change and no processing fails. */
  ghost predicate AllSucceed(events: seq<Event>) {
    forall i :: 0 <= i < |events| ==> events[i].DoClaim? || events[i].DoComplete?
  }

  ghost predicate Drains(s: Store, events: seq<Event>) {
    IsRun(s, events) && AllSucceed(events) && Drained(Run(s, events))
  }

  /** The membership says what the document asks for. */
  predicate Current(s: Store, d: DocumentId)
    requires d in s.documents
  {
    d in s.memberships && s.memberships[d] == Membership(s.documents[d].hash, StatusOf(Wants(s.documents[d])))
  }

  /** The document failed for good with its current content. */
  predicate GivenUp(s: Store, d: DocumentId)
    requires d in s.documents
  {
    d in s.memberships && s.memberships[d] == Membership(s.documents[d].hash, Failed)
  }

  /** Only the row the document asks for is outstanding, or none is. */
  ghost predicate OnTarget(s: Store, d: DocumentId)
    requires d in s.documents
  {
    forall k :: k in s.work && k.document == d && Outstanding(s.work[k]) ==> k == Target(s, d)
  }

  /** What one drain keeps about a document once only its target is queued. */
  ghost predicate Settling(s: Store, d: DocumentId) {
    && d in s.documents && d in s.memberships && OnTarget(s, d)
    && (Current(s, d) || GivenUp(s, d) || s.memberships[d] == Membership(s.documents[d].hash, Wanted))
  }

  lemma {:induction false} DrainKeepsSettling(s: Store, events: seq<Event>, d: DocumentId)
    requires IsRun(s, events) && AllSucceed(events) && Settling(s, d)
    ensures Settling(Run(s, events), d)
    decreases |events|
  {
    if |events| > 0 {
      var t := Apply(s, events[0]);
      assert events[0].DoClaim? || events[0].DoComplete?;
      assert Settling(t, d) by {
        forall k | k in t.work && k.document == d && Outstanding(t.work[k]) ensures k == Target(t, d) {
          assert k in s.work && Outstanding(s.work[k]);
        }
      }
      DrainKeepsSettling(t, events[1..], d);
    }
  }

  lemma {:induction false} DrainKeepsDocuments(s: Store, events: seq<Event>)
    requires IsRun(s, events) && AllSucceed(events)
    ensures Run(s, events).documents == s.documents && Run(s, events).memberships.Keys == s.memberships.Keys
    decreases |events|
  {
    if |events| > 0 {
      assert events[0].DoClaim? || events[0].DoComplete?;
      DrainKeepsDocuments(Apply(s, events[0]), events[1..]);
    }
  }

  /** Reconciling a drained store queues nothing but targets. */
  lemma ReconcileSettles(s: Store, now: Time, d: DocumentId)
    requires Inv(s) && Drained(s) && d in s.documents
    ensures Settling(Reconcile(s, now), d)
  {
  }

  ghost predicate Stable(s: Store) {
    forall d :: d in s.documents ==> Current(s, d) || GivenUp(s, d)
  }

  /** A stable, drained store is a fixed point of reconciliation. */
  lemma StableSchedulesNothing(s: Store, now: Time)
    requires Stable(s) && Drained(s)
    ensures Due(s) == {} && Reconcile(s, now) == s
  {
  }

  ghost function Round(s: Store, now: Time, drain: seq<Event>): Store {
    Run(Reconcile(s, now), drain)
  }

  /**
   * Main result: from any reachable state, whatever is queued and in whatever order it is worked
   * off, two rounds of reconciling and draining bring every membership that has not failed for
   * good to its document's content and desired status, and a third would schedule nothing.
   */
  lemma TwoRoundsStabilise(s: Store, now1: Time, drain1: seq<Event>, now2: Time, drain2: seq<Event>, now3: Time)
    requires Inv(s) && Drains(Reconcile(s, now1), drain1)
    requires Drains(Reconcile(Round(s, now1, drain1), now2), drain2)
    ensures var t := Round(Round(s, now1, drain1), now2, drain2);
            Stable(t) && t.documents == s.documents && Due(t) == {} && Reconcile(t, now3) == t
  {
    ReconcileKeeps(s, now1);
    RunKeeps(Reconcile(s, now1), drain1);
    DrainKeepsDocuments(Reconcile(s, now1), drain1);
    var s1 := Round(s, now1, drain1);
    var s2 := Reconcile(s1, now2);
    ReconcileKeeps(s1, now2);
    RunKeeps(s2, drain2);
    DrainKeepsDocuments(s2, drain2);
    var t := Run(s2, drain2);
    forall d | d in t.documents ensures Current(t, d) || GivenUp(t, d) {
      ReconcileSettles(s1, now2, d);
      DrainKeepsSettling(s2, drain2, d);
      assert WaitsForWork(t, d);
    }
    StableSchedulesNothing(t, now3);
  }

  /** After a reconciliation a document with no work but its target settles. */
  lemma OnTargetSettles(s: Store, now: Time, d: DocumentId)
    requires Inv(s) && d in s.documents && OnTarget(Reconcile(s, now), d)
    ensures Settling(Reconcile(s, now), d)
  {
  }

  ghost predicate AllOnTarget(s: Store) {
    forall d :: d in s.documents ==> OnTarget(s, d)
  }

  /** One round is enough when nothing but targets is queued after the reconciliation. */
  lemma OneRoundOnTarget(s: Store, now: Time, drain: seq<Event>)
    requires Inv(s) && AllOnTarget(Reconcile(s, now)) && Drains(Reconcile(s, now), drain)
    ensures Stable(Round(s, now, drain))
  {
    var s1 := Reconcile(s, now);
    ReconcileKeeps(s, now);
    RunKeeps(s1, drain);
    DrainKeepsDocuments(s1, drain);
    var t := Run(s1, drain);
    forall d | d in t.documents ensures Current(t, d) || GivenUp(t, d) {
      OnTargetSettles(s, now, d);
      DrainKeepsSettling(s1, drain, d);
      assert WaitsForWork(t, d);
    }
  }

  // ----- Draining is possible, and once is not enough -----

  ghost function OutstandingKeys(s: Store): set<WorkKey> {
    set k | k in s.work && Outstanding(s.work[k])
  }

  /** A time at which the row can be claimed, whoever held it before. */
  function ReadyTime(r: Row): Time {
    if r.expires.Some? && r.expires.value > r.nextAttempt then r.expires.value else r.nextAttempt
  }

  /** One more claim or completion before a drain. */
  lemma DrainPrepend(s: Store, e: Event, rest: seq<Event>)
    requires Possible(s, e) && (e.DoClaim? || e.DoComplete?) && Drains(Apply(s, e), rest)
    ensures Drains(s, [e] + rest) && Run(s, [e] + rest) == Run(Apply(s, e), rest)
  {
  }

  lemma TakeOne(s: Store, k: WorkKey)
    requires Inv(s) && k in OutstandingKeys(s)
    ensures var e := DoClaim({k}, "w", ReadyTime(s.work[k]), ReadyTime(s.work[k]) + 1);
            && Possible(s, e) && Inv(Apply(s, e)) && OutstandingKeys(Apply(s, e)) == OutstandingKeys(s)
            && HoldsWork(Apply(s, e), k, "w", ReadyTime(s.work[k]))
  {
    assert Leased(s.work[k]);
    ApplyKeeps(s, DoClaim({k}, "w", ReadyTime(s.work[k]), ReadyTime(s.work[k]) + 1));
  }

  lemma FinishOne(s: Store, k: WorkKey, now: Time)
    requires Inv(s) && HoldsWork(s, k, "w", now)
    ensures Inv(CompleteWork(s, k, "w", now)) && OutstandingKeys(CompleteWork(s, k, "w", now)) == OutstandingKeys(s) - {k}
  {
    ApplyKeeps(s, DoComplete(k, "w", now));
  }

  ghost predicate CanDrain(s: Store) {
    exists events :: Drains(s, events)
  }

  lemma CanDrainFirst(s: Store, e: Event)
    requires Possible(s, e) && (e.DoClaim? || e.DoComplete?) && CanDrain(Apply(s, e))
    ensures CanDrain(s)
  {
    var rest :| Drains(Apply(s, e), rest);
    DrainPrepend(s, e, rest);
  }

  /** Every store can be drained by claims and completions alone. */
  lemma {:induction false} DrainExists(s: Store)
    requires Inv(s)
    ensures CanDrain(s)
    decreases |OutstandingKeys(s)|
  {
    if OutstandingKeys(s) == {} {
      assert forall k :: k in s.work ==> k !in OutstandingKeys(s);
      assert Drains(s, []);
    } else {
      var k :| k in OutstandingKeys(s);
      var now := ReadyTime(s.work[k]);
      var claim, done := DoClaim({k}, "w", now, now + 1), DoComplete(k, "w", now);
      TakeOne(s, k);
      FinishOne(Apply(s, claim), k, now);
      DrainExists(Apply(Apply(s, claim), done));
      CanDrainFirst(Apply(s, claim), done);
      CanDrainFirst(s, claim);
    }
  }

  /** The drain ends with the membership of a document as this row leaves it. */
  ghost predicate EndsWith(s: Store, drain: seq<Event>, k: WorkKey) {
    && Drains(s, drain) && k.document in Run(s, drain).memberships
    && Run(s, drain).memberships[k.document] == Membership(k.hash, StatusOf(k.op))
  }

  ghost predicate CanEndWith(s: Store, k: WorkKey) {
    exists drain :: EndsWith(s, drain, k)
  }

  lemma CanEndFirst(s: Store, e: Event, k: WorkKey)
    requires Possible(s, e) && (e.DoClaim? || e.DoComplete?) && CanEndWith(Apply(s, e), k)
    ensures CanEndWith(s, k)
  {
    var rest :| EndsWith(Apply(s, e), rest, k);
    DrainPrepend(s, e, rest);
    assert EndsWith(s, [e] + rest, k);
  }

  /** Any outstanding row can be the last to be finished. */
  lemma {:induction false} AnyRowCanBeLast(s: Store, k: WorkKey)
    requires Inv(s) && k in OutstandingKeys(s)
    ensures CanEndWith(s, k)
    decreases |OutstandingKeys(s)|, 1
  {
    var j := k;
    if OutstandingKeys(s) != {k} {
      j :| j in OutstandingKeys(s) && j != k;
    }
    FinishFirst(s, k, j);
  }

  lemma {:induction false} FinishFirst(s: Store, k: WorkKey, j: WorkKey)
    requires Inv(s) && k in OutstandingKeys(s) && j in OutstandingKeys(s) && (j == k ==> OutstandingKeys(s) == {k})
    ensures CanEndWith(s, k)
    decreases |OutstandingKeys(s)|, 0
  {
    var now := ReadyTime(s.work[j]);
    var claim, done := DoClaim({j}, "w", now, now + 1), DoComplete(j, "w", now);
    TakeOne(s, j);
    var t := Apply(s, claim);
    FinishOne(t, j, now);
    var u := Apply(t, done);
    if j == k {
      assert OutstandingKeys(u) == {};
      assert forall i :: i in u.work ==> i !in OutstandingKeys(u);
      assert EndsWith(u, [], k);
    } else {
      AnyRowCanBeLast(u, k);
    }
    CanEndFirst(t, done, k);
    CanEndFirst(s, claim, k);
  }

  /**
   * One round is enough, however the work is drained, exactly when the reconciliation leaves no row
   * queued that is not what its document asks for.
   */
  lemma OneRoundExactly(s: Store, now: Time)
    requires Inv(s)
    ensures (forall drain :: Drains(Reconcile(s, now), drain) ==> Stable(Round(s, now, drain))) <==> AllOnTarget(Reconcile(s, now))
  {
    var t := Reconcile(s, now);
    ReconcileKeeps(s, now);
    if AllOnTarget(t) {
      forall drain | Drains(t, drain) ensures Stable(Round(s, now, drain)) {
        OneRoundOnTarget(s, now, drain);
      }
    } else {
      var d, k :| d in t.documents && k in t.work && k.document == d && Outstanding(t.work[k]) && k != Target(t, d);
      AnyRowCanBeLast(t, k);
      var drain :| EndsWith(t, drain, k);
      EndsOffTarget(t, drain, d, k);
      assert !Stable(Round(s, now, drain));
    }
  }

  lemma EndsOffTarget(t: Store, drain: seq<Event>, d: DocumentId, k: WorkKey)
    requires d in t.documents && k.document == d && k != Target(t, d) && EndsWith(t, drain, k)
    ensures !Stable(Run(t, drain))
  {
    DrainKeepsDocuments(t, drain);
    assert k == WorkKey(d, k.op, k.hash);
    assert StatusOf(k.op) != Failed && (k.op != Wants(t.documents[d]) ==> StatusOf(k.op) != StatusOf(Wants(t.documents[d])));
    var u := Run(t, drain);
    assert d in u.documents && !Current(u, d) && !GivenUp(u, d);
  }

  /** So one round is enough when nothing was queued before it. */
  lemma OneRoundAfterDrain(s: Store, now: Time, drain: seq<Event>)
    requires Inv(s) && Drained(s) && Drains(Reconcile(s, now), drain)
    ensures Stable(Round(s, now, drain))
  {
    forall d | d in s.documents ensures OnTarget(Reconcile(s, now), d) {
      ReconcileSettles(s, now, d);
    }
    OneRoundOnTarget(s, now, drain);
  }

  /** A reconciliation queues targets only, so what is off target was queued before it. */
  lemma OffTargetIsOld(s: Store, now: Time, k: WorkKey)
    requires Inv(s) && k in Reconcile(s, now).work && k.document in s.documents && k != Target(s, k.document)
    ensures k in s.work && (Outstanding(Reconcile(s, now).work[k]) <==> Outstanding(s.work[k]))
  {
  }

  /** A document queued with content a and then written with content b. */
  function Rewritten(d: DocumentId, a: Hash, b: Hash): Store {
    Store(map[d := Document(true, b)], map[d := Membership(a, Wanted)],
          map[WorkKey(d, ToUpsert, a) := Row(Pending, 0, 0, 0, None, None)])
  }

  lemma RewrittenIsReachable(d: DocumentId, a: Hash, b: Hash)
    ensures Run(Store(map[], map[], map[]), [WriteDocument(d, Document(true, a)), DoReconcile(0), WriteDocument(d, Document(true, b))])
            == Rewritten(d, a, b)
  {
    var s1 := Store(map[d := Document(true, a)], map[], map[]);
    var k := WorkKey(d, ToUpsert, a);
    assert ShouldEnqueue(s1, d) && Target(s1, d) == k;
    var s2 := Reconcile(s1, 0);
    assert s2.work == map[k := Row(Pending, 0, 0, 0, None, None)];
    assert s2.memberships == map[d := Membership(a, Wanted)];
    var e1, e2, e3 := WriteDocument(d, Document(true, a)), DoReconcile(0), WriteDocument(d, Document(true, b));
    assert [e1, e2, e3][1..] == [e2, e3] && [e2, e3][1..] == [e3] && [e3][1..] == [];
    assert Run(s2, [e3]) == Run(Rewritten(d, a, b), []);
  }

  const QUEUED: Row := Row(Pending, 0, 0, 0, None, None)

  lemma RewrittenReconciled(d: DocumentId, a: Hash, b: Hash)
    requires a != b
    ensures Reconcile(Rewritten(d, a, b), 0)
            == Store(map[d := Document(true, b)], map[d := Membership(b, Wanted)],
                     map[WorkKey(d, ToUpsert, a) := QUEUED, WorkKey(d, ToUpsert, b) := QUEUED])
  {
    var s := Rewritten(d, a, b);
    var t := Reconcile(s, 0);
    assert ShouldEnqueue(s, d) && Target(s, d) == WorkKey(d, ToUpsert, b);
    assert t.work == map[WorkKey(d, ToUpsert, a) := QUEUED, WorkKey(d, ToUpsert, b) := QUEUED];
    assert t.memberships == map[d := Membership(b, Wanted)];
  }

  /** Completing the newer row first. */
  lemma OldRowLast(s: Store, ka: WorkKey, kb: WorkKey)
    requires ka != kb && ka.document == kb.document && ka.document in s.memberships && ka.op == ToUpsert
    requires s.work == map[ka := Claimed(QUEUED, "w", 1), kb := Claimed(QUEUED, "w", 1)]
    ensures var drain := [DoComplete(kb, "w", 0), DoComplete(ka, "w", 0)];
            && Drains(s, drain) && Run(s, drain).documents == s.documents
            && Run(s, drain).memberships == s.memberships[ka.document := Membership(ka.hash, Indexed)]
  {
    var t := Apply(s, DoComplete(kb, "w", 0));
    var u := Apply(t, DoComplete(ka, "w", 0));
    assert HoldsWork(t, ka, "w", 0);
    assert Drains(u, []) && Run(u, []) == u;
    DrainPrepend(t, DoComplete(ka, "w", 0), []);
    DrainPrepend(s, DoComplete(kb, "w", 0), [DoComplete(ka, "w", 0)] + []);
    assert [DoComplete(ka, "w", 0)] + [] == [DoComplete(ka, "w", 0)];
    assert [DoComplete(kb, "w", 0)] + [DoComplete(ka, "w", 0)] == [DoComplete(kb, "w", 0), DoComplete(ka, "w", 0)];
  }

  lemma BothClaimed(s: Store, ka: WorkKey, kb: WorkKey)
    requires s.work == map[ka := QUEUED, kb := QUEUED]
    ensures var e := DoClaim({ka, kb}, "w", 0, 1);
            && Possible(s, e) && Apply(s, e).work == map[ka := Claimed(QUEUED, "w", 1), kb := Claimed(QUEUED, "w", 1)]
            && Apply(s, e).documents == s.documents && Apply(s, e).memberships == s.memberships
  {
    assert ResetLeases(s, 0).work == s.work;
  }

  /** Nothing supersedes the old row, so working it off last leaves the old content indexed. */
  lemma OneRoundIsNotEnough(d: DocumentId, a: Hash, b: Hash)
    requires a != b
    ensures exists drain :: Drains(Reconcile(Rewritten(d, a, b), 0), drain) && !Stable(Round(Rewritten(d, a, b), 0, drain))
  {
    RewrittenReconciled(d, a, b);
    var t := Reconcile(Rewritten(d, a, b), 0);
    var ka, kb := WorkKey(d, ToUpsert, a), WorkKey(d, ToUpsert, b);
    var claim := DoClaim({ka, kb}, "w", 0, 1);
    BothClaimed(t, ka, kb);
    OldRowLast(Apply(t, claim), ka, kb);
    var rest := [DoComplete(kb, "w", 0), DoComplete(ka, "w", 0)];
    DrainPrepend(t, claim, rest);
    var end := Run(t, [claim] + rest);
    assert d in end.documents && !Current(end, d) && !GivenUp(end, d);
  }
}
