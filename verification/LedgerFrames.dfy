/**
 * What no operation of the ledger changes: the identity of accounts and reservations, and the
 * links between the tables.
 */
module LedgerFrames {
  import opened Wrappers
  import opened BudgetVectors
  import opened LedgerModel

  /** An account keeps everything but its balances and its revision, and the revision only grows. */
  ghost predicate SameAccount(a: Account, b: Account) {
    b.program == a.program && b.parent == a.parent && b.kind == a.kind && b.limit == a.limit
    && b.isProtected == a.isProtected && a.revision <= b.revision
  }

  /** A reservation keeps its identity and the amount it was created with. */
  ghost predicate SameReservation(r: Reservation, q: Reservation) {
    q.program == r.program && q.account == r.account && q.parent == r.parent
    && q.operationKey == r.operationKey && q.reserved == r.reserved && r.revision <= q.revision
    && (HasUsage(r.state) ==> q.state == r.state && q.settled == r.settled)
    && (r.state == Released ==> q.state == Released || q.state == Reconciled)
  }

  ghost predicate Evolves(s: Ledger, t: Ledger) {
    && t.accounts.Keys == s.accounts.Keys
    && (forall a :: a in s.accounts ==> SameAccount(s.accounts[a], t.accounts[a]))
    && s.reservations.Keys <= t.reservations.Keys
    && (forall id :: id in s.reservations ==> SameReservation(s.reservations[id], t.reservations[id]))
    && s.spends.Keys <= t.spends.Keys
    && (forall e :: e in s.spends ==> t.spends[e] == s.spends[e])
  }

  // ----- Links between the tables -----

  ghost predicate Linked(s: Ledger, id: Id)
    requires id in s.reservations
  {
    var r := s.reservations[id];
    && r.account in s.accounts
    && s.accounts[r.account].program == r.program
    && (r.parent.Some? ==>
          r.parent.value != id && r.parent.value in s.reservations && s.reservations[r.parent.value].account == r.account)
    && !IsZero(r.reserved)
    && r.state != Rejected
  }

  ghost predicate AllLinked(s: Ledger) {
    forall id :: id in s.reservations ==> Linked(s, id)
  }

  ghost predicate UniqueKeys(rs: Reservations) {
    forall i, j :: i in rs && j in rs && rs[i].operationKey == rs[j].operationKey ==> i == j
  }

  /** A released reservation holds nothing and nothing live was drawn from it. */
  ghost predicate ReleasedIsClosed(rs: Reservations, id: Id)
    requires id in rs
  {
    rs[id].state == Released ==> rs[id].remaining == map[] && !HasActiveChildren(rs, id)
  }

  ghost predicate AllClosed(rs: Reservations) {
    forall id :: id in rs ==> ReleasedIsClosed(rs, id)
  }

  ghost predicate WellFormed(s: Ledger) {
    AllLinked(s) && AllClosed(s.reservations) && UniqueKeys(s.reservations)
  }

  // ----- Effects -----

  /** The rows an effect may write without breaking an identity. */
  ghost predicate Writable(s: Ledger, e: Effect) {
    e.Write? ==>
      && (e.balance.Some? ==> e.balance.value.account in s.accounts)
      && (e.parent.Some? ==> e.parent.value.reservation in s.reservations && e.parent.value.reservation != e.id)
      && (e.id in s.reservations ==> SameReservation(s.reservations[e.id], e.row))
      && (e.event.Some? ==> e.event.value.source !in s.spends)
  }

  lemma CommitEvolves(s: Ledger, e: Effect)
    requires Writable(s, e)
    ensures Evolves(s, Commit(s, e))
  {
  }

  lemma ReserveWritable(s: Ledger, i: ReserveInput)
    requires Reserve(s, i).Success?
    ensures Writable(s, Reserve(s, i).value)
  {
  }

  lemma ReleaseWritable(s: Ledger, id: Id, expected: nat)
    requires AllLinked(s) && Release(s, id, expected).Success?
    ensures Writable(s, Release(s, id, expected).value)
  {
    assert Linked(s, id);
  }

  /** A settlement that will change the tables: not a repeat, and not late. */
  ghost predicate SettlesNow(s: Ledger, i: SettleInput) {
    && i.sourceEvent !in s.spends && i.reservation in s.reservations
    && !HasUsage(s.reservations[i.reservation].state)
    && s.reservations[i.reservation].state != Released
  }

  /** Usage that is reported for a reservation already released. */
  ghost predicate SettlesLate(s: Ledger, i: SettleInput) {
    && i.sourceEvent !in s.spends && i.reservation in s.reservations
    && s.reservations[i.reservation].state == Released
  }

  /** A settlement that writes takes exactly one of the three branches. */
  lemma SettleBranches(s: Ledger, i: SettleInput)
    requires SettlesNow(s, i) || SettlesLate(s, i)
    requires Settle(s, i).Success?
    ensures Settleable(s, i)
    ensures Settle(s, i) ==
            if SettlesLate(s, i) then SettleLate(s, i)
            else if s.reservations[i.reservation].parent.Some? then SettleChild(s, i, s.reservations[i.reservation].parent.value)
            else SettleTop(s, i)
  {
  }

  lemma SettleWritable(s: Ledger, i: SettleInput)
    requires AllLinked(s) && Settle(s, i).Success?
    ensures Writable(s, Settle(s, i).value)
  {
    assert Linked(s, i.reservation);
    if SettlesNow(s, i) || SettlesLate(s, i) {
      SettleBranches(s, i);
      var r := s.reservations[i.reservation];
      if r.state == Released {
        assert SameReservation(r, Finalized(r, Reconciled, i.actual));
      } else {
        assert SameReservation(r, Finalized(r, Settled, i.actual));
      }
    }
  }

  lemma DecisionWritable(s: Ledger, op: Op)
    requires AllLinked(s) && !op.SetProgram? && Decide(s, op).Success?
    ensures Writable(s, Decide(s, op).value)
  {
    match op
    case DoReserve(i) => ReserveWritable(s, i);
    case DoActivate(id, expected, request) =>
    case DoMarkUncertain(id, expected) =>
    case DoRelease(id, expected) => ReleaseWritable(s, id, expected);
    case DoSettle(i) => SettleWritable(s, i);
  }

  /** Nothing an operation does, or undoes, touches an identity; usage and spend events are final. */
  lemma StepEvolves(s: Ledger, op: Op)
    requires AllLinked(s)
    ensures Evolves(s, Step(s, op))
  {
    if !op.SetProgram? && Decide(s, op).Success? {
      DecisionWritable(s, op);
      CommitEvolves(s, Decide(s, op).value);
    }
  }

  /** A row that exists stays linked; only its state can become a different one. */
  lemma LinkKept(s: Ledger, t: Ledger, id: Id)
    requires id in s.reservations && Linked(s, id) && Evolves(s, t)
    requires t.reservations[id].state != Rejected
    ensures Linked(t, id)
  {
  }

  // ----- The row a step writes -----

  /** Only reserve adds a row, after checking its operation key, its account and its parent. */
  ghost predicate RowAdded(s: Ledger, op: Op, e: Effect) {
    && op.DoReserve? && e.Write?
    && var i := op.reserve;
    && e.id == i.id && e.row == NewReservation(i) && e.event.None?
    && !KeyTaken(s.reservations, i.operationKey) && !IsZero(i.amount)
    && i.account in s.accounts && s.accounts[i.account].program == i.program
    && s.accounts[i.account].kind in AllowedKinds(i.consumer)
    && (i.parent.Some? ==>
          && i.parent.value in s.reservations && s.reservations[i.parent.value].account == i.account
          && (s.reservations[i.parent.value].state == Created || s.reservations[i.parent.value].state == Active)
          && e.parent.Some? && e.parent.value.reservation == i.parent.value && e.balance.None?)
    && (i.parent.None? ==> e.parent.None? && e.balance.Some? && e.balance.value.account == i.account)
  }

  /** Only release makes a row released, after checking that it has no live children. */
  ghost predicate RowReleased(s: Ledger, op: Op, e: Effect) {
    op.DoRelease? && e.Write? && e.id == op.id && e.row.remaining == map[] && !HasActiveChildren(s.reservations, e.id)
  }

  lemma ReserveRow(s: Ledger, i: ReserveInput)
    requires Reserve(s, i).Success? && Reserve(s, i).value.Write?
    ensures RowAdded(s, DoReserve(i), Reserve(s, i).value)
    ensures i.id !in s.reservations
  {
  }

  lemma ReleaseRow(s: Ledger, id: Id, expected: nat)
    requires Release(s, id, expected).Success? && Release(s, id, expected).value.Write?
    ensures var e := Release(s, id, expected).value;
            && RowReleased(s, DoRelease(id, expected), e) && e.row.state == Released && id in s.reservations
            && Unfinished(s.reservations[id].state)
            && (e.parent.Some? ==> s.reservations[id].parent == Some(e.parent.value.reservation))
  {
  }

  lemma SettleRow(s: Ledger, i: SettleInput)
    requires Settle(s, i).Success? && Settle(s, i).value.Write?
    ensures var e := Settle(s, i).value;
            && e.id == i.reservation && e.id in s.reservations && HasUsage(e.row.state) && e.row.remaining == map[]
            && !HasUsage(s.reservations[e.id].state) && e.row.settled == Some(i.actual)
            && (e.parent.Some? ==>
                  s.reservations[e.id].parent == Some(e.parent.value.reservation) && s.reservations[e.id].state != Released)
  {
  }

  lemma TransitionRow(s: Ledger, op: Op)
    requires op.DoActivate? || op.DoMarkUncertain?
    requires Decide(s, op).Success?
    ensures var e := Decide(s, op).value;
            && e.Write? && e.id in s.reservations && e.parent.None? && Unfinished(s.reservations[e.id].state)
            && Unfinished(e.row.state)
  {
  }

  lemma RowWritten(s: Ledger, op: Op)
    requires !op.SetProgram? && Decide(s, op).Success? && Decide(s, op).value.Write?
    ensures var e := Decide(s, op).value;
            && (e.id !in s.reservations ==> RowAdded(s, op, e))
            && (e.row.state == Released ==> RowReleased(s, op, e))
            && (e.row.state != Rejected)
            && (e.parent.Some? && e.id in s.reservations ==>
                  && s.reservations[e.id].parent == Some(e.parent.value.reservation)
                  && !HasUsage(s.reservations[e.id].state) && s.reservations[e.id].state != Released)
            && (e.id in s.reservations && !Unfinished(s.reservations[e.id].state) && s.reservations[e.id].state != Rejected ==>
                  s.reservations[e.id].state == Released && e.row.state == Reconciled)
  {
    match op
    case DoReserve(i) => ReserveRow(s, i);
    case DoActivate(id, expected, request) => TransitionRow(s, op);
    case DoMarkUncertain(id, expected) => TransitionRow(s, op);
    case DoRelease(id, expected) => ReleaseRow(s, id, expected);
    case DoSettle(i) =>
      SettleRow(s, i);
      if s.reservations[i.reservation].state == Released {
        assert Settle(s, i) == SettleLate(s, i);
      }
  }

  /** The table after a step has at most one row the table before it did not have. */
  lemma NewRow(s: Ledger, op: Op, id: Id)
    requires id in Step(s, op).reservations && id !in s.reservations
    ensures !op.SetProgram? && Decide(s, op).Success? && RowAdded(s, op, Decide(s, op).value)
    ensures Decide(s, op).value.id == id && Step(s, op).reservations[id] == Decide(s, op).value.row
  {
    if !op.SetProgram? && Decide(s, op).Success? && Decide(s, op).value.Write? {
      RowWritten(s, op);
    }
  }

  // ----- Structural invariants -----

  lemma StepLinks(s: Ledger, op: Op)
    requires AllLinked(s)
    ensures AllLinked(Step(s, op))
  {
    var t := Step(s, op);
    StepEvolves(s, op);
    forall id | id in t.reservations ensures Linked(t, id) {
      if id in s.reservations {
        OldRowLinked(s, op, id);
      } else {
        NewRowLinked(s, op, id);
      }
    }
  }

  lemma OldRowLinked(s: Ledger, op: Op, id: Id)
    requires AllLinked(s) && id in s.reservations && Evolves(s, Step(s, op))
    ensures Linked(Step(s, op), id)
  {
    var t := Step(s, op);
    assert Linked(s, id);
    if t.reservations[id].state != s.reservations[id].state {
      RowWritten(s, op);
    }
    LinkKept(s, t, id);
  }

  lemma NewRowLinked(s: Ledger, op: Op, id: Id)
    requires AllLinked(s) && id !in s.reservations && id in Step(s, op).reservations && Evolves(s, Step(s, op))
    ensures Linked(Step(s, op), id)
  {
    NewRow(s, op, id);
    var t, i := Step(s, op), op.reserve;
    assert SameAccount(s.accounts[i.account], t.accounts[i.account]);
    if i.parent.Some? {
      assert SameReservation(s.reservations[i.parent.value], t.reservations[i.parent.value]);
    }
  }

  lemma StepKeys(s: Ledger, op: Op)
    requires AllLinked(s) && UniqueKeys(s.reservations)
    ensures UniqueKeys(Step(s, op).reservations)
  {
    var t := Step(s, op);
    StepEvolves(s, op);
    forall i, j | i in t.reservations && j in t.reservations && t.reservations[i].operationKey == t.reservations[j].operationKey
      ensures i == j
    {
      if i !in s.reservations {
        NewRow(s, op, i);
      } else {
        assert SameReservation(s.reservations[i], t.reservations[i]);
      }
      if j !in s.reservations {
        NewRow(s, op, j);
      } else {
        assert SameReservation(s.reservations[j], t.reservations[j]);
      }
    }
  }

  /** A state that was finished stays finished. */
  lemma FinishedStays(s: Ledger, op: Op, id: Id)
    requires AllLinked(s) && id in s.reservations && !Unfinished(s.reservations[id].state)
    ensures id in Step(s, op).reservations && !Unfinished(Step(s, op).reservations[id].state)
  {
    StepEvolves(s, op);
    assert Linked(s, id);
    assert SameReservation(s.reservations[id], Step(s, op).reservations[id]);
  }

  lemma NoNewChildren(s: Ledger, op: Op, id: Id)
    requires AllLinked(s) && id in s.reservations
    requires !Unfinished(s.reservations[id].state) || (op.DoRelease? && op.id == id)
    requires !HasActiveChildren(s.reservations, id)
    ensures !HasActiveChildren(Step(s, op).reservations, id)
  {
    var t := Step(s, op);
    StepEvolves(s, op);
    forall c | c in t.reservations && t.reservations[c].parent == Some(id) ensures !Unfinished(t.reservations[c].state) {
      if c in s.reservations {
        assert SameReservation(s.reservations[c], t.reservations[c]);
        FinishedStays(s, op, c);
      } else {
        NewRow(s, op, c);
      }
    }
  }

  /** Nothing returns to a reservation once it has been released. */
  lemma StaysReleased(s: Ledger, op: Op, id: Id)
    requires AllLinked(s) && AllClosed(s.reservations) && id in s.reservations && s.reservations[id].state == Released
    requires id in Step(s, op).reservations && Step(s, op).reservations[id].state == Released
    ensures Step(s, op).reservations[id] == s.reservations[id]
  {
    assert ReleasedIsClosed(s.reservations, id);
    if !op.SetProgram? && Decide(s, op).Success? && Decide(s, op).value.Write? {
      RowWritten(s, op);
      var e := Decide(s, op).value;
      if e.id in s.reservations {
        assert Linked(s, e.id);
      }
    }
  }

  /** Only release makes a row released, and it leaves the row empty. */
  lemma BecomesReleased(s: Ledger, op: Op, id: Id)
    requires AllLinked(s) && id in s.reservations && s.reservations[id].state != Released
    requires id in Step(s, op).reservations && Step(s, op).reservations[id].state == Released
    ensures op.DoRelease? && op.id == id && !HasActiveChildren(s.reservations, id)
    ensures Step(s, op).reservations[id].remaining == map[]
  {
    if !op.SetProgram? && Decide(s, op).Success? && Decide(s, op).value.Write? {
      RowWritten(s, op);
    }
  }

  lemma StepCloses(s: Ledger, op: Op)
    requires AllLinked(s) && AllClosed(s.reservations)
    ensures AllClosed(Step(s, op).reservations)
  {
    var t := Step(s, op);
    forall id | id in t.reservations ensures ReleasedIsClosed(t.reservations, id) {
      if id !in s.reservations {
        NewRow(s, op, id);
      } else if t.reservations[id].state == Released {
        assert ReleasedIsClosed(s.reservations, id);
        if s.reservations[id].state == Released {
          StaysReleased(s, op, id);
        } else {
          BecomesReleased(s, op, id);
        }
        NoNewChildren(s, op, id);
      }
    }
  }

  lemma StepWellFormed(s: Ledger, op: Op)
    requires WellFormed(s)
    ensures WellFormed(Step(s, op))
  {
    StepLinks(s, op);
    StepKeys(s, op);
    StepCloses(s, op);
  }

  lemma {:induction false} RunEvolves(s: Ledger, ops: seq<Op>)
    requires WellFormed(s)
    ensures WellFormed(Run(s, ops)) && Evolves(s, Run(s, ops))
    decreases |ops|
  {
    if |ops| > 0 {
      StepEvolves(s, ops[0]);
      StepWellFormed(s, ops[0]);
      RunEvolves(Step(s, ops[0]), ops[1..]);
      EvolvesTransitive(s, Step(s, ops[0]), Run(s, ops));
    }
  }

  lemma EvolvesTransitive(s: Ledger, t: Ledger, u: Ledger)
    requires Evolves(s, t) && Evolves(t, u)
    ensures Evolves(s, u)
  {
    forall id | id in s.reservations ensures SameReservation(s.reservations[id], u.reservations[id]) {
      assert SameReservation(s.reservations[id], t.reservations[id]);
      assert SameReservation(t.reservations[id], u.reservations[id]);
    }
    forall a | a in s.accounts ensures SameAccount(s.accounts[a], u.accounts[a]) {
      assert SameAccount(s.accounts[a], t.accounts[a]);
      assert SameAccount(t.accounts[a], u.accounts[a]);
    }
  }
}
