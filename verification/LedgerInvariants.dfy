/**
 * What every run of the ledger keeps: escrow conservation, the spend record and the overspend
 * bound, for every account and every dimension.
 */
module LedgerInvariants {
  import opened Wrappers
  import opened Totals
  import opened BudgetVectors
  import opened LedgerModel
  import opened LedgerFrames

  // ----- The three sums over the reservations of one account -----

  /** What a reservation still holds in escrow. */
  ghost function RemainingOn(a: Id, d: Dimension): Reservation -> int {
    (r: Reservation) => if r.account == a then At(r.remaining, d) else 0
  }

  /** What was spent against a reservation. */
  ghost function SettledOn(a: Id, d: Dimension): Reservation -> int {
    (r: Reservation) => if r.account == a && HasUsage(r.state) && r.settled.Some? then At(r.settled.value, d) else 0
  }

  /** What was spent against a reservation that had already been released. */
  ghost function LateOn(a: Id, d: Dimension): Reservation -> int {
    (r: Reservation) => if r.account == a && r.state == Reconciled && r.settled.Some? then At(r.settled.value, d) else 0
  }

  /** The account's reserved amount is exactly what its reservations still hold. */
  ghost predicate Conserved(s: Ledger, a: Id, d: Dimension)
    requires a in s.accounts
  {
    At(s.accounts[a].reserved, d) == Total(s.reservations, RemainingOn(a, d))
  }

  /** The account's spent amount is exactly the recorded usage. */
  ghost predicate SpentRecorded(s: Ledger, a: Id, d: Dimension)
    requires a in s.accounts
  {
    At(s.accounts[a].spent, d) == Total(s.reservations, SettledOn(a, d))
  }

  /** Only usage reported after a release can carry an account past its limit. */
  ghost predicate Bounded(s: Ledger, a: Id, d: Dimension)
    requires a in s.accounts
  {
    At(s.accounts[a].spent, d) + At(s.accounts[a].reserved, d)
      <= At(s.accounts[a].limit, d) + Total(s.reservations, LateOn(a, d))
  }

  ghost predicate BooksAt(s: Ledger, a: Id, d: Dimension)
    requires a in s.accounts
  {
    Conserved(s, a, d) && SpentRecorded(s, a, d) && Bounded(s, a, d)
  }

  ghost predicate Books(s: Ledger) {
    forall a, d :: a in s.accounts ==> BooksAt(s, a, d)
  }

  /** A spend event belongs to a reservation that records the same usage. */
  ghost predicate EventMatches(s: Ledger, e: Id)
    requires e in s.spends
  {
    && s.spends[e].reservation in s.reservations
    && HasUsage(s.reservations[s.spends[e].reservation].state)
    && s.reservations[s.spends[e].reservation].settled == Some(s.spends[e].actual)
  }

  ghost predicate HasEvent(s: Ledger, id: Id) {
    exists e :: e in s.spends && s.spends[e].reservation == id
  }

  /** Spend events and reservations with usage correspond one to one. */
  ghost predicate Events(s: Ledger) {
    && (forall e :: e in s.spends ==> EventMatches(s, e))
    && (forall e, f :: e in s.spends && f in s.spends && s.spends[e].reservation == s.spends[f].reservation ==> e == f)
    && (forall id :: id in s.reservations && HasUsage(s.reservations[id].state) ==> HasEvent(s, id))
  }

  ghost predicate Inv(s: Ledger) {
    WellFormed(s) && Books(s) && Events(s)
  }

  // ----- The settlement discipline -----

  /** Nothing has been drawn from the reservation. */
  ghost predicate Untouched(r: Reservation) {
    forall d :: At(r.remaining, d) == At(r.reserved, d)
  }

  /**
   * What a caller must see to before settling, because the code compares the usage with the
   * reserved amount only: a child must be untouched, and the usage of a top-level reservation must
   * fit what it still holds.
   */
  ghost predicate SettlementDiscipline(s: Ledger, i: SettleInput) {
    SettlesNow(s, i) ==>
      var r := s.reservations[i.reservation];
      if r.parent.Some? then Untouched(r) else Fits(i.actual, r.remaining)
  }

  ghost predicate Disciplined(s: Ledger, op: Op) {
    op.DoSettle? ==> SettlementDiscipline(s, op.settle)
  }

  ghost predicate DisciplinedRun(s: Ledger, ops: seq<Op>)
    decreases |ops|
  {
    |ops| == 0 || (Disciplined(s, ops[0]) && DisciplinedRun(Step(s, ops[0]), ops[1..]))
  }

  // ----- How a sum moves with one commit -----

  ghost function ParentRow(s: Ledger, e: Effect): Reservation
    requires e.Write? && e.parent.Some? && e.parent.value.reservation in s.reservations
  {
    WithRemaining(s.reservations[e.parent.value.reservation], e.parent.value.remaining)
  }

  ghost function Moved(s: Ledger, e: Effect, w: Reservation -> int): int
    requires e.Write? && Writable(s, e)
  {
    w(e.row) - (if e.id in s.reservations then w(s.reservations[e.id]) else 0)
    + (if e.parent.Some? then w(ParentRow(s, e)) - w(s.reservations[e.parent.value.reservation]) else 0)
  }

  lemma CommitMoves(s: Ledger, e: Effect, w: Reservation -> int)
    requires e.Write? && Writable(s, e)
    ensures Total(Commit(s, e).reservations, w) == Total(s.reservations, w) + Moved(s, e, w)
  {
    var rs := s.reservations;
    if e.parent.Some? {
      var p := e.parent.value.reservation;
      var rs' := rs[p := ParentRow(s, e)];
      assert CommitParent(rs, e.parent) == rs';
      TotalUpdate(rs, w, p, ParentRow(s, e));
      if e.id in rs {
        TotalUpdate(rs', w, e.id, e.row);
      } else {
        TotalInsert(rs', w, e.id, e.row);
      }
    } else if e.id in rs {
      TotalUpdate(rs, w, e.id, e.row);
    } else {
      TotalInsert(rs, w, e.id, e.row);
    }
  }

  /** The change of an account's two balances in one dimension. */
  ghost function SpentMoved(s: Ledger, e: Effect, a: Id, d: Dimension): int
    requires e.Write? && a in s.accounts
  {
    if e.balance.Some? && e.balance.value.account == a then At(e.balance.value.spent, d) - At(s.accounts[a].spent, d) else 0
  }

  ghost function ReservedMoved(s: Ledger, e: Effect, a: Id, d: Dimension): int
    requires e.Write? && a in s.accounts
  {
    if e.balance.Some? && e.balance.value.account == a then At(e.balance.value.reserved, d) - At(s.accounts[a].reserved, d) else 0
  }

  /** The books balance after a commit when both sides of each entry move by the same amount. */
  lemma CommitBooks(s: Ledger, e: Effect, a: Id, d: Dimension)
    requires e.Write? && Writable(s, e) && a in s.accounts && BooksAt(s, a, d)
    requires ReservedMoved(s, e, a, d) == Moved(s, e, RemainingOn(a, d))
    requires SpentMoved(s, e, a, d) == Moved(s, e, SettledOn(a, d))
    requires SpentMoved(s, e, a, d) + ReservedMoved(s, e, a, d) <= Moved(s, e, LateOn(a, d))
             || (At(s.accounts[a].spent, d) + At(s.accounts[a].reserved, d) + SpentMoved(s, e, a, d) + ReservedMoved(s, e, a, d)
                   <= At(s.accounts[a].limit, d) && 0 <= Moved(s, e, LateOn(a, d)))
    ensures a in Commit(s, e).accounts && BooksAt(Commit(s, e), a, d)
  {
    CommitMoves(s, e, RemainingOn(a, d));
    CommitMoves(s, e, SettledOn(a, d));
    CommitMoves(s, e, LateOn(a, d));
    TotalNonNegative(s.reservations, LateOn(a, d));
  }

  /** The row an effect replaces, and the amounts its parent's row gains. */
  ghost function Regained(s: Ledger, e: Effect, d: Dimension): int
    requires e.Write? && Writable(s, e)
  {
    if e.parent.Some?
    then At(e.parent.value.remaining, d) - At(s.reservations[e.parent.value.reservation].remaining, d)
    else 0
  }

  /**
   * Replacing the row of one account keeps every account's books, when the account's balances move
   * by what the row and its parent hold and by the usage recorded.
   */
  lemma EntryBooks(s: Ledger, e: Effect, a: Id, d: Dimension)
    requires e.Write? && Writable(s, e) && a in s.accounts && BooksAt(s, a, d)
    requires e.id in s.reservations && !HasUsage(s.reservations[e.id].state)
    requires e.balance.Some? ==> e.balance.value.account == e.row.account
    requires e.parent.Some? ==> s.reservations[e.parent.value.reservation].account == e.row.account
    requires HasUsage(e.row.state) ==> e.row.settled.Some?
    requires a == e.row.account ==>
               && ReservedMoved(s, e, a, d) == At(e.row.remaining, d) - At(s.reservations[e.id].remaining, d) + Regained(s, e, d)
               && SpentMoved(s, e, a, d) == (if HasUsage(e.row.state) then At(e.row.settled.value, d) else 0)
               && SpentMoved(s, e, a, d) + ReservedMoved(s, e, a, d)
                    <= (if e.row.state == Reconciled then At(e.row.settled.value, d) else 0)
    ensures a in Commit(s, e).accounts && BooksAt(Commit(s, e), a, d)
  {
    assert SameReservation(s.reservations[e.id], e.row);
    CommitBooks(s, e, a, d);
  }

  // ----- The operations -----

  lemma ReserveBooks(s: Ledger, i: ReserveInput, a: Id, d: Dimension)
    requires a in s.accounts && BooksAt(s, a, d)
    requires Reserve(s, i).Success? && Reserve(s, i).value.Write?
    ensures a in Commit(s, Reserve(s, i).value).accounts && BooksAt(Commit(s, Reserve(s, i).value), a, d)
  {
    ReserveRow(s, i);
    ReserveWritable(s, i);
    var e := Reserve(s, i).value;
    if i.parent.Some? {
      assert Reserve(s, i) == ReserveUnderParent(s, i);
      CommitBooks(s, e, a, d);
    } else {
      assert Reserve(s, i) == ReserveFromAccount(s, i);
      ReserveTopBooks(s, i, a, d);
    }
  }

  lemma ReserveTopBooks(s: Ledger, i: ReserveInput, a: Id, d: Dimension)
    requires a in s.accounts && BooksAt(s, a, d) && i.account in s.accounts && i.parent.None?
    requires ReserveFromAccount(s, i).Success? && Writable(s, ReserveFromAccount(s, i).value)
    ensures var t := Commit(s, ReserveFromAccount(s, i).value); a in t.accounts && BooksAt(t, a, d)
  {
    var acc := s.accounts[i.account];
    assert At(i.amount, d) <= At(Minus(acc.limit, Plus(acc.spent, acc.reserved)), d);
    CommitBooks(s, ReserveFromAccount(s, i).value, a, d);
  }

  lemma TransitionBooks(s: Ledger, op: Op, a: Id, d: Dimension)
    requires op.DoActivate? || op.DoMarkUncertain?
    requires a in s.accounts && BooksAt(s, a, d) && Decide(s, op).Success?
    ensures a in Commit(s, Decide(s, op).value).accounts && BooksAt(Commit(s, Decide(s, op).value), a, d)
  {
    TransitionRow(s, op);
    CommitBooks(s, Decide(s, op).value, a, d);
  }

  lemma ReleaseToParentBooks(s: Ledger, id: Id, p: Id, a: Id, d: Dimension)
    requires id in s.reservations && a in s.accounts && BooksAt(s, a, d) && Unfinished(s.reservations[id].state)
    requires p in s.reservations && s.reservations[p].account == s.reservations[id].account
    requires ReleaseToParent(s, id, p).Success? && Writable(s, ReleaseToParent(s, id, p).value)
    ensures var t := Commit(s, ReleaseToParent(s, id, p).value); a in t.accounts && BooksAt(t, a, d)
  {
    EntryBooks(s, ReleaseToParent(s, id, p).value, a, d);
  }

  lemma ReleaseToAccountBooks(s: Ledger, id: Id, a: Id, d: Dimension)
    requires id in s.reservations && a in s.accounts && BooksAt(s, a, d) && Unfinished(s.reservations[id].state)
    requires s.reservations[id].account in s.accounts
    requires ReleaseToAccount(s, id).Success? && Writable(s, ReleaseToAccount(s, id).value)
    ensures var t := Commit(s, ReleaseToAccount(s, id).value); a in t.accounts && BooksAt(t, a, d)
  {
    EntryBooks(s, ReleaseToAccount(s, id).value, a, d);
  }

  lemma ReleaseBooks(s: Ledger, id: Id, expected: nat, a: Id, d: Dimension)
    requires AllLinked(s) && a in s.accounts && BooksAt(s, a, d)
    requires Release(s, id, expected).Success? && Release(s, id, expected).value.Write?
    ensures var t := Commit(s, Release(s, id, expected).value); a in t.accounts && BooksAt(t, a, d)
  {
    ReleaseRow(s, id, expected);
    ReleaseWritable(s, id, expected);
    assert Linked(s, id);
    if s.reservations[id].parent.Some? {
      ReleaseToParentBooks(s, id, s.reservations[id].parent.value, a, d);
    } else {
      ReleaseToAccountBooks(s, id, a, d);
    }
  }

  lemma SettleLateBooks(s: Ledger, i: SettleInput, a: Id, d: Dimension)
    requires Settleable(s, i) && a in s.accounts && BooksAt(s, a, d)
    requires s.reservations[i.reservation].state == Released && s.reservations[i.reservation].remaining == map[]
    requires SettleLate(s, i).Success? && Writable(s, SettleLate(s, i).value)
    ensures var t := Commit(s, SettleLate(s, i).value); a in t.accounts && BooksAt(t, a, d)
  {
    EntryBooks(s, SettleLate(s, i).value, a, d);
  }

  lemma SettleChildBooks(s: Ledger, i: SettleInput, p: Id, a: Id, d: Dimension)
    requires Settleable(s, i) && a in s.accounts && BooksAt(s, a, d)
    requires !HasUsage(s.reservations[i.reservation].state) && Untouched(s.reservations[i.reservation])
    requires p in s.reservations && s.reservations[p].account == s.reservations[i.reservation].account
    requires SettleChild(s, i, p).Success? && Writable(s, SettleChild(s, i, p).value)
    ensures var t := Commit(s, SettleChild(s, i, p).value); a in t.accounts && BooksAt(t, a, d)
  {
    var r, e := s.reservations[i.reservation], SettleChild(s, i, p).value;
    assert At(r.remaining, d) == At(r.reserved, d);
    EntryBooks(s, e, a, d);
  }

  lemma SettleTopBooks(s: Ledger, i: SettleInput, a: Id, d: Dimension)
    requires Settleable(s, i) && a in s.accounts && BooksAt(s, a, d)
    requires !HasUsage(s.reservations[i.reservation].state) && Fits(i.actual, s.reservations[i.reservation].remaining)
    requires SettleTop(s, i).Success? && Writable(s, SettleTop(s, i).value)
    ensures var t := Commit(s, SettleTop(s, i).value); a in t.accounts && BooksAt(t, a, d)
  {
    assert At(i.actual, d) <= At(s.reservations[i.reservation].remaining, d);
    EntryBooks(s, SettleTop(s, i).value, a, d);
  }

  lemma SettleBooks(s: Ledger, i: SettleInput, a: Id, d: Dimension)
    requires WellFormed(s) && a in s.accounts && BooksAt(s, a, d)
    requires Settle(s, i).Success? && Settle(s, i).value.Write? && SettlementDiscipline(s, i)
    ensures var t := Commit(s, Settle(s, i).value); a in t.accounts && BooksAt(t, a, d)
  {
    SettleWrites(s, i);
    SettleWritable(s, i);
    SettleBranches(s, i);
    assert Linked(s, i.reservation) && ReleasedIsClosed(s.reservations, i.reservation);
    if SettlesLate(s, i) {
      SettleLateBooks(s, i, a, d);
    } else if s.reservations[i.reservation].parent.Some? {
      SettleChildBooks(s, i, s.reservations[i.reservation].parent.value, a, d);
    } else {
      SettleTopBooks(s, i, a, d);
    }
  }

  lemma SettleWrites(s: Ledger, i: SettleInput)
    requires Settle(s, i).Success? && Settle(s, i).value.Write?
    ensures SettlesNow(s, i) || SettlesLate(s, i)
  {
  }

  /** A new event for a reservation that had none keeps the correspondence. */
  lemma CommitNewEvent(s: Ledger, e: Effect)
    requires Events(s) && e.Write? && Writable(s, e) && e.id in s.reservations
    requires e.event.Some? && e.event.value.spend.reservation == e.id && !HasUsage(s.reservations[e.id].state)
    requires HasUsage(e.row.state) && e.row.settled == Some(e.event.value.spend.actual)
    ensures Events(Commit(s, e))
  {
    var t := Commit(s, e);
    CommitEvolves(s, e);
    forall f | f in s.spends ensures s.spends[f].reservation != e.id && EventMatches(t, f) {
      assert EventMatches(s, f);
      assert SameReservation(s.reservations[s.spends[f].reservation], t.reservations[s.spends[f].reservation]);
    }
    forall id | id in t.reservations && HasUsage(t.reservations[id].state) ensures HasEvent(t, id) {
      if id == e.id {
        assert t.spends[e.event.value.source].reservation == id;
      } else {
        assert HasUsage(s.reservations[id].state) && HasEvent(s, id);
        var f :| f in s.spends && s.spends[f].reservation == id;
        assert t.spends[f].reservation == id;
      }
    }
  }

  lemma SettleEvents(s: Ledger, i: SettleInput)
    requires AllLinked(s) && Events(s)
    requires Settle(s, i).Success? && Settle(s, i).value.Write?
    ensures Events(Commit(s, Settle(s, i).value))
  {
    SettleRow(s, i);
    SettleWritable(s, i);
    SettleWrites(s, i);
    SettleBranches(s, i);
    CommitNewEvent(s, Settle(s, i).value);
  }

  lemma CommitNoEvent(s: Ledger, e: Effect)
    requires Events(s) && e.Write? && Writable(s, e) && e.event.None? && !HasUsage(e.row.state)
    ensures Events(Commit(s, e))
  {
  }

  lemma StepEvents(s: Ledger, op: Op)
    requires AllLinked(s) && Events(s)
    ensures Events(Step(s, op))
  {
    if !op.SetProgram? && Decide(s, op).Success? && Decide(s, op).value.Write? {
      if op.DoSettle? {
        SettleEvents(s, op.settle);
      } else {
        DecisionWritable(s, op);
        NoEvent(s, op);
        CommitNoEvent(s, Decide(s, op).value);
      }
    }
  }

  lemma NoEvent(s: Ledger, op: Op)
    requires !op.DoSettle? && !op.SetProgram? && Decide(s, op).Success? && Decide(s, op).value.Write?
    ensures Decide(s, op).value.event.None? && !HasUsage(Decide(s, op).value.row.state)
  {
    match op
    case DoReserve(i) => ReserveRow(s, i);
    case DoActivate(id, expected, request) => TransitionRow(s, op);
    case DoMarkUncertain(id, expected) => TransitionRow(s, op);
    case DoRelease(id, expected) => ReleaseRow(s, id, expected);
  }

  lemma StepBooks(s: Ledger, op: Op, a: Id, d: Dimension)
    requires WellFormed(s) && Disciplined(s, op) && a in s.accounts && BooksAt(s, a, d)
    requires !op.SetProgram? && Decide(s, op).Success? && Decide(s, op).value.Write?
    ensures a in Step(s, op).accounts && BooksAt(Step(s, op), a, d)
  {
    match op
    case DoReserve(i) => ReserveBooks(s, i, a, d);
    case DoActivate(id, expected, request) => TransitionBooks(s, op, a, d);
    case DoMarkUncertain(id, expected) => TransitionBooks(s, op, a, d);
    case DoRelease(id, expected) => ReleaseBooks(s, id, expected, a, d);
    case DoSettle(i) => SettleBooks(s, i, a, d);
  }

  lemma StepAllBooks(s: Ledger, op: Op)
    requires WellFormed(s) && Books(s) && Disciplined(s, op)
    ensures Books(Step(s, op))
  {
    var t := Step(s, op);
    StepEvolves(s, op);
    forall a, d | a in t.accounts ensures BooksAt(t, a, d) {
      assert BooksAt(s, a, d);
      if !op.SetProgram? && Decide(s, op).Success? && Decide(s, op).value.Write? {
        StepBooks(s, op, a, d);
      }
    }
  }

  lemma StepKeepsInv(s: Ledger, op: Op)
    requires Inv(s) && Disciplined(s, op)
    ensures Inv(Step(s, op))
  {
    StepWellFormed(s, op);
    StepEvents(s, op);
    StepAllBooks(s, op);
  }

  /**
   * Main result: escrow conservation, the spend record and the overspend bound hold after every
   * disciplined run, whatever operations throw on the way.
   */
  lemma {:induction false} RunKeepsInv(s: Ledger, ops: seq<Op>)
    requires Inv(s) && DisciplinedRun(s, ops)
    ensures Inv(Run(s, ops))
    decreases |ops|
  {
    if |ops| > 0 {
      StepKeepsInv(s, ops[0]);
      RunKeepsInv(Step(s, ops[0]), ops[1..]);
    }
  }
}
