/** What runs keep of the envelopes: disciplined ones, and those that settle only reservations without children. */
module LedgerEnvelopeRuns {
  import opened Wrappers
  import opened BudgetVectors
  import opened LedgerModel
  import opened LedgerFrames
  import opened LedgerInvariants
  import opened LedgerEnvelopes

  lemma StepKeepsEnvelopes(s: Ledger, op: Op)
    requires EnvelopeInv(s) && Disciplined(s, op)
    ensures EnvelopeInv(Step(s, op))
  {
    var t := Step(s, op);
    StepWellFormed(s, op);
    StepAcyclic(s, op);
    forall p, d | p in t.reservations ensures EnvelopeFull(t.reservations, p, d) {
      StepEnvelope(s, op, p, d);
    }
    forall id | id in t.reservations ensures ChildIsClosed(t.reservations, id) {
      StepChildClosed(s, op, id);
    }
  }

  /** Main result: every unfinished envelope stays full over every disciplined run. */
  lemma {:induction false} RunKeepsEnvelopes(s: Ledger, ops: seq<Op>)
    requires EnvelopeInv(s) && DisciplinedRun(s, ops)
    ensures EnvelopeInv(Run(s, ops))
    decreases |ops|
  {
    if |ops| > 0 {
      StepKeepsEnvelopes(s, ops[0]);
      RunKeepsEnvelopes(Step(s, ops[0]), ops[1..]);
    }
  }

  // ----- Settling leaves only -----

  /** Nothing was ever drawn from the reservation: it has no children. */
  ghost predicate IsLeaf(rs: Reservations, id: Id) {
    forall c :: c in rs ==> rs[c].parent != Some(id)
  }

  lemma {:induction false} NothingBelowLeaf(rs: Reservations, id: Id, g: Id, n: nat)
    requires IsLeaf(rs, id)
    ensures !Above(rs, id, g, n)
    decreases n
  {
    if n > 1 && g in rs && rs[g].parent.Some? {
      NothingBelowLeaf(rs, id, rs[g].parent.value, n - 1);
    }
  }

  /** A caller that settles only reservations without children obeys the discipline. */
  lemma LeafIsDisciplined(s: Ledger, i: SettleInput)
    requires EnvelopeInv(s) && IsLeaf(s.reservations, i.reservation) && Settle(s, i).Success?
    requires i.reservation in s.reservations && s.reservations[i.reservation].state != Rejected
    ensures SettlementDiscipline(s, i)
  {
    var rs, id := s.reservations, i.reservation;
    if SettlesNow(s, i) {
      SettleBranches(s, i);
      forall g | g in rs ensures !Below(rs, g, id) {
        forall n: nat ensures !Above(rs, id, g, n) {
          NothingBelowLeaf(rs, id, g, n);
        }
      }
      assert Drawn(rs, id) == map[];
      forall d ensures At(rs[id].remaining, d) == At(rs[id].reserved, d) {
        assert EnvelopeFull(rs, id, d);
      }
      assert forall d :: At(i.actual, d) <= At(rs[id].remaining, d);
    }
  }

  ghost predicate SettlesLeaf(s: Ledger, op: Op) {
    op.DoSettle? ==> IsLeaf(s.reservations, op.settle.reservation)
  }

  ghost predicate LeafRun(s: Ledger, ops: seq<Op>)
    decreases |ops|
  {
    |ops| == 0 || (SettlesLeaf(s, ops[0]) && LeafRun(Step(s, ops[0]), ops[1..]))
  }

  /**
   * Main result: a run that settles only reservations without children keeps all the books and all
   * the envelopes, with no other obligation on its callers.
   */
  lemma {:induction false} LeafRunKeepsBooks(s: Ledger, ops: seq<Op>)
    requires Inv(s) && EnvelopeInv(s) && LeafRun(s, ops)
    ensures Inv(Run(s, ops)) && EnvelopeInv(Run(s, ops))
    decreases |ops|
  {
    if |ops| > 0 {
      var op := ops[0];
      if op.DoSettle? && Settle(s, op.settle).Failure? {
        assert Step(s, op) == s;
      } else {
        if op.DoSettle? {
          assert Linked(s, op.settle.reservation);
          LeafIsDisciplined(s, op.settle);
        }
        StepKeepsInv(s, op);
        StepKeepsEnvelopes(s, op);
      }
      LeafRunKeepsBooks(Step(s, op), ops[1..]);
    }
  }
}
