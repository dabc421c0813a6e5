/** The transactions of the knowledge outbox as the repository runs them (src/memory/memory-repository.ts). */
module SemanticOutboxes {
  import opened Wrappers
  import opened OutboxModel
  import opened Ranking
  import opened KnowledgeOutbox

  function Created(work: map<WorkKey, Row>, k: WorkKey): Time {
    if k in work then work[k].created else 0
  }

  function WorkOrder(work: map<WorkKey, Row>): (WorkKey, WorkKey) -> bool {
    (a: WorkKey, b: WorkKey) => Created(work, a) <= Created(work, b)
  }

  function AvailableWork(s: Store, now: Time): set<WorkKey> {
    set k | k in s.work && Available(s.work[k], now)
  }

  class SemanticOutbox {
    var documents: map<DocumentId, Document>
    var memberships: map<DocumentId, Membership>
    var work: map<WorkKey, Row>

    ghost function State(): Store
      reads this
    {
      Store(documents, memberships, work)
    }

    /** One document of the reconciliation. */
    method EnqueueDocument(d: DocumentId, now: Time) returns (queued: bool)
      requires d in documents
      modifies this`memberships, this`work
      ensures queued == ShouldEnqueue(old(State()), d)
      ensures State() == EnqueueOne(old(State()), d, now)
    {
      var document := documents[d];
      var op := if document.active then ToUpsert else ToDelete;
      var desired := if op == ToUpsert then Indexed else Deleted;
      if d in memberships && memberships[d].hash == document.hash
         && (memberships[d].status == Wanted || memberships[d].status == Failed || memberships[d].status == desired) {
        return false;
      }
      var k := WorkKey(d, op, document.hash);
      memberships := memberships[d := Membership(document.hash, Wanted)];
      work := work[k := Row(Pending, 0, now, if k in work then work[k].created else now, None, None)];
      queued := true;
    }

    /** The documents one by one, counting those that were queued. */
    method EnqueueDocuments(now: Time) returns (scheduled: nat, ghost order: seq<DocumentId>)
      modifies this`memberships, this`work
      ensures (forall d :: d in order <==> d in documents) && Distinct(order)
      ensures State() == EnqueueInTurn(old(State()), order, now) && scheduled == CountDue(old(State()), order)
    {
      ghost var s := State();
      var left := documents.Keys;
      scheduled, order := 0, [];
      while left != {}
        invariant left <= documents.Keys && documents == s.documents
        invariant forall d :: d in order <==> d in documents.Keys - left
        invariant Distinct(order)
        invariant State() == EnqueueInTurn(s, order, now) && scheduled == CountDue(s, order)
        decreases |left|
      {
        var d :| d in left;
        InTurnDue(s, order, d, now);
        var queued := EnqueueDocument(d, now);
        assert (order + [d])[..|order|] == order;
        scheduled := if queued then scheduled + 1 else scheduled;
        order := order + [d];
        left := left - {d};
      }
    }

    method Reconcile(now: Time) returns (scheduled: nat)
      modifies this`memberships, this`work
      ensures State() == KnowledgeOutbox.Reconcile(old(State()), now)
      ensures scheduled == |Due(old(State()))|
    {
      ghost var s, order := State(), [];
      scheduled, order := EnqueueDocuments(now);
      InTurnIsEnqueued(s, order, now);
      DueIsOfDocuments(s);
      assert Elements(order) == s.documents.Keys;
      Promote(now);
    }

    method Promote(now: Time)
      modifies this`work
      ensures State() == PromoteAll(old(State()), now)
    {
      work := map k | k in work :: Promoted(work[k], now);
    }

    method Claim(w: WorkerId, limit: int, now: Time, leaseMs: int) returns (keys: seq<WorkKey>)
      modifies this`work
      ensures var s := ResetLeases(old(State()), now);
              Front(WorkOrder(s.work), AvailableWork(s, now), keys, Min(500, Max(1, limit)))
      ensures MayClaim(old(State()), (set k | k in keys), now)
      ensures State() == ClaimWork(old(State()), (set k | k in keys), w, now, now + Max(1000, leaseMs))
    {
      work := map k | k in work :: if Expired(work[k], now) then Unclaimed(work[k]) else work[k];
      assert State() == ResetLeases(old(State()), now);
      var available := set k | k in work && Available(work[k], now);
      assert available == AvailableWork(State(), now);
      keys := Select(WorkOrder(work), available, Min(500, Max(1, limit)));
      work := map k | k in work :: if k in keys then Claimed(work[k], w, now + Max(1000, leaseMs)) else work[k];
    }

    method Complete(k: WorkKey, w: WorkerId, now: Time) returns (done: bool)
      modifies this`memberships, this`work
      ensures done == HoldsWork(old(State()), k, w, now)
      ensures State() == CompleteWork(old(State()), k, w, now)
    {
      if k !in work || work[k].status != Processing || work[k].owner != Some(w) || work[k].expires.None? || work[k].expires.value <= now {
        return false;
      }
      work := work[k := Finished(work[k], Completed, work[k].nextAttempt)];
      if k.document in memberships {
        memberships := memberships[k.document := Membership(k.hash, if k.op == ToDelete then Deleted else Indexed)];
      }
      done := true;
    }

    method Fail(k: WorkKey, w: WorkerId, retryAt: Time, dead: bool, now: Time) returns (done: bool)
      modifies this`memberships, this`work
      ensures done == HoldsWork(old(State()), k, w, now)
      ensures State() == FailWork(old(State()), k, w, retryAt, dead, now)
    {
      if k !in work || work[k].status != Processing || work[k].owner != Some(w) || work[k].expires.None? || work[k].expires.value <= now {
        return false;
      }
      work := work[k := Finished(work[k], if dead then DeadLetter else Pending, retryAt)];
      if k.document in memberships {
        memberships := memberships[k.document := Membership(memberships[k.document].hash, if dead then Failed else Wanted)];
      }
      done := true;
    }
  }
}
