/**
 * At-least-once delivery acts as exactly-once: repeating a reserve or a settle that has already
 * succeeded changes nothing, however much later the repeat arrives.
 */
module LedgerReplay {
  import opened Wrappers
  import opened Totals
  import opened BudgetVectors
  import opened LedgerModel
  import opened LedgerFrames
  import opened LedgerInvariants

  /** A reserve or settle call that returns a row. */
  ghost predicate Succeeds(s: Ledger, op: Op) {
    (op.DoReserve? || op.DoSettle?) && Decide(s, op).Success?
  }

  /** The trace a successful reserve leaves for good. */
  ghost predicate ReserveDone(s: Ledger, i: ReserveInput) {
    && !IsZero(i.amount)
    && i.id in s.reservations
    && s.reservations[i.id].operationKey == i.operationKey && s.reservations[i.id].account == i.account
    && s.reservations[i.id].parent == i.parent && s.reservations[i.id].reserved == i.amount
  }

  /** The trace a successful settle leaves for good. */
  ghost predicate SettleDone(s: Ledger, i: SettleInput) {
    && i.reservation in s.reservations
    && HasUsage(s.reservations[i.reservation].state) && s.reservations[i.reservation].settled == Some(i.actual)
  }

  ghost predicate Done(s: Ledger, op: Op) {
    (op.DoReserve? && ReserveDone(s, op.reserve)) || (op.DoSettle? && SettleDone(s, op.settle))
  }

  lemma ReserveLeavesTrace(s: Ledger, i: ReserveInput)
    requires Reserve(s, i).Success?
    ensures ReserveDone(Step(s, DoReserve(i)), i)
  {
    if Reserve(s, i).value.Write? {
      ReserveRow(s, i);
    }
  }

  lemma SettleLeavesTrace(s: Ledger, i: SettleInput)
    requires Events(s) && Settle(s, i).Success?
    ensures SettleDone(Step(s, DoSettle(i)), i)
  {
    if Settle(s, i).value.Write? {
      SettleRow(s, i);
    } else if i.sourceEvent in s.spends {
      assert EventMatches(s, i.sourceEvent);
    }
  }

  lemma LeavesTrace(s: Ledger, op: Op)
    requires Events(s) && Succeeds(s, op)
    ensures Done(Step(s, op), op)
  {
    if op.DoReserve? {
      ReserveLeavesTrace(s, op.reserve);
    } else {
      SettleLeavesTrace(s, op.settle);
    }
  }

  /** Once done, done for ever. */
  lemma TraceStays(s: Ledger, op: Op, next: Op)
    requires AllLinked(s) && Done(s, op)
    ensures Done(Step(s, next), op)
  {
    StepEvolves(s, next);
    var id := if op.DoReserve? then op.reserve.id else op.settle.reservation;
    assert SameReservation(s.reservations[id], Step(s, next).reservations[id]);
  }

  /**
   * A repeat of a reserve that was done returns the row it made, as the row is now; a repeat of a
   * settle that was done returns the settled row, or is refused when its event identifier has been
   * used for something else since.  Neither changes the ledger.
   */
  lemma RepeatChangesNothing(s: Ledger, op: Op)
    requires UniqueKeys(s.reservations) && Done(s, op)
    ensures Step(s, op) == s
    ensures op.DoReserve? ==> Decide(s, op) == Success(Existing(s.reservations[op.reserve.id]))
    ensures op.DoSettle? ==>
              Decide(s, op) == (if op.settle.sourceEvent in s.spends && s.spends[op.settle.sourceEvent] != Spend(op.settle.reservation, op.settle.actual)
                                then Failure(Conflict) else Success(Existing(s.reservations[op.settle.reservation])))
  {
  }

  /**
   * delivered is log with extra copies: each call delivered is either the next one of the log, or a
   * repeat of a reserve or settle that succeeded before.
   */
  ghost predicate Redelivers(s: Ledger, log: seq<Op>, delivered: seq<Op>, done: set<Op>)
    decreases |delivered|
  {
    if |delivered| == 0 then |log| == 0
    else
      var op := delivered[0];
      || (op in done && Redelivers(s, log, delivered[1..], done))
      || (|log| > 0 && log[0] == op
          && Redelivers(Step(s, op), log[1..], delivered[1..], if Succeeds(s, op) then done + {op} else done))
  }

  /**
   * Main result: whatever is repeated, and wherever the repeats fall, the final ledger is the one
   * the calls leave when each is delivered once.
   */
  lemma {:induction false} RedeliveryIsInvisible(s: Ledger, log: seq<Op>, delivered: seq<Op>, done: set<Op>)
    requires WellFormed(s) && Events(s)
    requires forall op <- done :: Done(s, op)
    requires Redelivers(s, log, delivered, done)
    ensures Run(s, delivered) == Run(s, log)
    decreases |delivered|
  {
    if |delivered| > 0 {
      var op := delivered[0];
      if op in done && Redelivers(s, log, delivered[1..], done) {
        RepeatChangesNothing(s, op);
        RedeliveryIsInvisible(s, log, delivered[1..], done);
      } else {
        var t := Step(s, op);
        var done' := if Succeeds(s, op) then done + {op} else done;
        StepWellFormed(s, op);
        StepEvents(s, op);
        forall x | x in done' ensures Done(t, x) {
          if x in done {
            TraceStays(s, x, op);
          } else {
            LeavesTrace(s, op);
          }
        }
        RedeliveryIsInvisible(t, log[1..], delivered[1..], done');
      }
    }
  }

  // ----- Spend events -----

  ghost function SpendOn(rs: Reservations, a: Id, d: Dimension): Spend -> int {
    (e: Spend) => if e.reservation in rs && rs[e.reservation].account == a then At(e.actual, d) else 0
  }

  /** left holds one event for each reservation of rest with usage, and no other event. */
  ghost predicate OneToOne(s: Ledger, left: map<Id, Spend>, rest: Reservations) {
    && (forall e :: e in left ==> EventIn(s, left[e], rest))
    && (forall e, f :: e in left && f in left && left[e].reservation == left[f].reservation ==> e == f)
    && (forall id :: id in rest && HasUsage(rest[id].state) ==> EventFor(left, id))
  }

  ghost predicate EventIn(s: Ledger, e: Spend, rest: Reservations) {
    && e.reservation in rest && e.reservation in s.reservations && rest[e.reservation] == s.reservations[e.reservation]
    && HasUsage(rest[e.reservation].state) && rest[e.reservation].settled == Some(e.actual)
  }

  ghost predicate EventFor(left: map<Id, Spend>, id: Id) {
    exists e :: e in left && left[e].reservation == id
  }

  lemma OneToOneWithout(s: Ledger, left: map<Id, Spend>, rest: Reservations, e: Id)
    requires OneToOne(s, left, rest) && e in left
    ensures OneToOne(s, left - {e}, rest - {left[e].reservation})
  {
    var left', rest' := left - {e}, rest - {left[e].reservation};
    forall f | f in left' ensures EventIn(s, left'[f], rest') {
      assert EventIn(s, left[f], rest);
    }
    forall id | id in rest' && HasUsage(rest'[id].state) ensures EventFor(left', id) {
      assert EventFor(left, id);
      var f :| f in left && left[f].reservation == id;
      assert f in left';
    }
  }

  /** Summing the usage through the events or through the reservations comes to the same. */
  lemma {:induction false} SumOverEvents(s: Ledger, left: map<Id, Spend>, rest: Reservations, a: Id, d: Dimension)
    requires OneToOne(s, left, rest)
    ensures Total(left, SpendOn(s.reservations, a, d)) == Total(rest, SettledOn(a, d))
    decreases |left|
  {
    if left == map[] {
      NoEventsNoUsage(s, rest, a, d);
    } else {
      var e :| e in left;
      OneToOneWithout(s, left, rest, e);
      assert (left - {e}).Keys == left.Keys - {e};
      SumOverEvents(s, left - {e}, rest - {left[e].reservation}, a, d);
      OneEvent(s, left, rest, e, a, d);
    }
  }

  lemma NoEventsNoUsage(s: Ledger, rest: Reservations, a: Id, d: Dimension)
    requires OneToOne(s, map[], rest)
    ensures Total<Id, Spend>(map[], SpendOn(s.reservations, a, d)) == Total(rest, SettledOn(a, d))
  {
  }

  lemma OneEvent(s: Ledger, left: map<Id, Spend>, rest: Reservations, e: Id, a: Id, d: Dimension)
    requires e in left && EventIn(s, left[e], rest)
    ensures Total(left, SpendOn(s.reservations, a, d)) - Total(left - {e}, SpendOn(s.reservations, a, d))
            == Total(rest, SettledOn(a, d)) - Total(rest - {left[e].reservation}, SettledOn(a, d))
  {
    TotalSplit(left, SpendOn(s.reservations, a, d), e);
    TotalSplit(rest, SettledOn(a, d), left[e].reservation);
  }

  /** In every reachable state an account's spent amount is the sum of its spend events. */
  lemma SpentIsSumOfEvents(s: Ledger, a: Id, d: Dimension)
    requires Inv(s) && a in s.accounts
    ensures At(s.accounts[a].spent, d) == Total(s.spends, SpendOn(s.reservations, a, d))
  {
    forall e | e in s.spends ensures EventIn(s, s.spends[e], s.reservations) {
      assert EventMatches(s, e);
    }
    forall id | id in s.reservations && HasUsage(s.reservations[id].state) ensures EventFor(s.spends, id) {
      assert HasEvent(s, id);
    }
    SumOverEvents(s, s.spends, s.reservations, a, d);
    assert BooksAt(s, a, d);
  }
}
