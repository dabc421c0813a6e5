/**
 * The ledger as the source writes it: methods that read rows, update them one statement at a time
 * and roll the transaction back when they throw (class BudgetLedger in src/budget/budget-ledger.ts).
 * Every method is proved to take exactly the step of LedgerModel.
 */
module BudgetLedgers {
  import opened Wrappers
  import opened BudgetVectors
  import opened LedgerModel
  import opened LedgerFrames
  import opened LedgerInvariants

  /** The row a call returns, or the error it throws. */
  ghost function Returns(s: Ledger, op: Op): Result<Reservation, LedgerError>
    requires !op.SetProgram?
  {
    match Decide(s, op)
    case Failure(e) => Failure(e)
    case Success(e) => Success(e.row)
  }

  lemma StepKeeps(s: Ledger, op: Op)
    requires WellFormed(s)
    ensures WellFormed(Step(s, op)) && (Inv(s) && Disciplined(s, op) ==> Inv(Step(s, op)))
  {
    StepWellFormed(s, op);
    if Inv(s) && Disciplined(s, op) {
      StepKeepsInv(s, op);
    }
  }

  /** The unfinished reservations directly below one other. */
  function ChildrenBelow(rs: Reservations, parent: Id): set<Id> {
    set id | id in rs && rs[id].parent == Some(parent) && Unfinished(rs[id].state)
  }

  lemma ChildrenBelowExist(rs: Reservations, parent: Id)
    ensures ChildrenBelow(rs, parent) != {} <==> HasActiveChildren(rs, parent)
  {
    forall c | c in rs && rs[c].parent == Some(parent) && Unfinished(rs[c].state) ensures c in ChildrenBelow(rs, parent) {
    }
  }

  class BudgetLedger {
    var accounts: Accounts
    var reservations: Reservations
    var spends: map<Id, Spend>
    var programs: map<Id, string>

    ghost function State(): Ledger
      reads this
    {
      Ledger(accounts, reservations, spends, programs)
    }

    ghost predicate Valid()
      reads this
    {
      WellFormed(State())
    }

    // ----- Reading -----

    /** The row with this operation key, if there is one. */
    method FindByKey(key: Id) returns (found: Option<Id>)
      requires UniqueKeys(reservations)
      ensures found.Some? <==> KeyTaken(reservations, key)
      ensures found.Some? ==> found.value == ByKey(reservations, key)
    {
      found := None;
      var ids := reservations.Keys;
      while ids != {}
        invariant ids <= reservations.Keys
        invariant found.Some? ==> found.value in reservations && reservations[found.value].operationKey == key
        invariant found.None? ==> forall id :: id in reservations && reservations[id].operationKey == key ==> id in ids
        decreases |ids|
      {
        var id :| id in ids;
        ids := ids - {id};
        if reservations[id].operationKey == key {
          found := Some(id);
        }
      }
    }

    method CountActiveChildren(parent: Id) returns (n: nat)
      ensures n == |ChildrenBelow(reservations, parent)|
      ensures n > 0 <==> HasActiveChildren(reservations, parent)
    {
      ChildrenBelowExist(reservations, parent);
      n := |ChildrenBelow(reservations, parent)|;
    }

    // ----- Statements: each one writes at most one row, and only at the revision that was read -----

    method UpdateAccount(id: Id, revision: nat, spent: Vector, reserved: Vector) returns (changed: bool)
      modifies this`accounts
      ensures changed == (id in old(accounts) && old(accounts)[id].revision == revision)
      ensures accounts == if changed then old(accounts)[id := WithBalance(old(accounts)[id], spent, reserved)] else old(accounts)
    {
      changed := id in accounts && accounts[id].revision == revision;
      if changed {
        accounts := accounts[id := WithBalance(accounts[id], spent, reserved)];
      }
    }

    method UpdateRemaining(id: Id, revision: nat, remaining: Vector) returns (changed: bool)
      modifies this`reservations
      ensures changed == (id in old(reservations) && old(reservations)[id].revision == revision)
      ensures reservations == if changed then old(reservations)[id := WithRemaining(old(reservations)[id], remaining)] else old(reservations)
    {
      changed := id in reservations && reservations[id].revision == revision;
      if changed {
        reservations := reservations[id := WithRemaining(reservations[id], remaining)];
      }
    }

    method FinalizeReservation(id: Id, revision: nat, st: ReservationState, settled: Vector) returns (changed: bool)
      modifies this`reservations
      ensures changed == (id in old(reservations) && old(reservations)[id].revision == revision)
      ensures reservations == if changed then old(reservations)[id := Finalized(old(reservations)[id], st, settled)] else old(reservations)
    {
      changed := id in reservations && reservations[id].revision == revision;
      if changed {
        reservations := reservations[id := Finalized(reservations[id], st, settled)];
      }
    }

    /** Undoes the statements of a transaction that throws. */
    method RollBack(s: Accounts, rs: Reservations, es: map<Id, Spend>)
      modifies this
      ensures accounts == s && reservations == rs && spends == es && programs == old(programs)
    {
      accounts, reservations, spends := s, rs, es;
    }

    // ----- reserve -----

    /** The statements of reserve after its checks, inside the transaction. */
    method ChargeReserve(i: ReserveInput) returns (error: Option<LedgerError>)
      requires i.account in accounts
      modifies this
      ensures programs == old(programs)
      ensures var d := if i.parent.Some? then ReserveUnderParent(old(State()), i) else ReserveFromAccount(old(State()), i);
              match error
              case Some(e) => d == Failure(e)
              case None => d.Success? && State() == Commit(old(State()), d.value)
    {
      if i.parent.Some? {
        var p := i.parent.value;
        if p !in reservations || reservations[p].account != i.account
           || (reservations[p].state != Created && reservations[p].state != Active) {
          return Some(InvalidState);
        }
        var parent := reservations[p];
        if !Fits(i.amount, parent.remaining) {
          return Some(Exceeded);
        }
        var next := SubtractBudgetVectors(parent.remaining, i.amount);
        var changed := UpdateRemaining(p, parent.revision, next.value);
      } else {
        var account := accounts[i.account];
        var committed := AddBudgetVectors(account.spent, account.reserved);
        if committed.Failure? {
          return Some(BudgetOverflow);
        }
        var available := SubtractBudgetVectors(account.limit, committed.value);
        if available.Failure? {
          return Some(BudgetUnderflow);
        }
        if !Fits(i.amount, available.value) {
          return Some(Exceeded);
        }
        var reserved := AddBudgetVectors(account.reserved, i.amount);
        if reserved.Failure? {
          return Some(BudgetOverflow);
        }
        var changed := UpdateAccount(i.account, account.revision, account.spent, reserved.value);
      }
      if i.id in reservations {
        return Some(StorageConstraint);
      }
      reservations := reservations[i.id := NewReservation(i)];
      error := None;
    }

    method Reserve(i: ReserveInput) returns (res: Result<Reservation, LedgerError>)
      requires Valid()
      modifies this
      ensures Valid() && State() == Step(old(State()), DoReserve(i))
      ensures res == Returns(old(State()), DoReserve(i))
      ensures Inv(old(State())) ==> Inv(State())
    {
      ghost var s := State();
      StepKeeps(s, DoReserve(i));
      if IsZero(i.amount) {
        return Failure(Conflict);
      }
      var existing := FindByKey(i.operationKey);
      if existing.Some? {
        var row := reservations[existing.value];
        if existing.value != i.id || row.account != i.account || row.parent != i.parent || row.reserved != i.amount {
          return Failure(Conflict);
        }
        return Success(row);
      }
      if i.account !in accounts || accounts[i.account].program != i.program {
        return Failure(NotFound);
      }
      if i.program !in programs || Terminal(programs[i.program]) {
        return Failure(InvalidState);
      }
      if accounts[i.account].kind !in AllowedKinds(i.consumer) {
        return Failure(ProtectedPartition);
      }
      var accounts0, reservations0, spends0 := accounts, reservations, spends;
      var error := ChargeReserve(i);
      if error.Some? {
        RollBack(accounts0, reservations0, spends0);
        return Failure(error.value);
      }
      res := Success(reservations[i.id]);
    }

    // ----- activate, markUncertain -----

    method ChangeState(id: Id, expected: nat, allowed: set<ReservationState>, next: ReservationState, request: Option<Id>)
      returns (res: Result<Reservation, LedgerError>)
      modifies this`reservations
      ensures var d := Transition(old(State()), id, expected, allowed, next, request);
              match res
              case Failure(e) => d == Failure(e) && State() == old(State())
              case Success(row) => d.Success? && d.value.row == row && State() == Commit(old(State()), d.value)
    {
      if id !in reservations {
        return Failure(NotFound);
      }
      var r := reservations[id];
      if r.revision != expected {
        return Failure(Conflict);
      }
      if r.state !in allowed {
        return Failure(InvalidState);
      }
      reservations := reservations[id := r.(state := next, revision := r.revision + 1,
                                            providerRequest := if request.Some? then request else r.providerRequest)];
      res := Success(reservations[id]);
    }

    method Activate(id: Id, expected: nat, request: Id) returns (res: Result<Reservation, LedgerError>)
      requires Valid()
      modifies this
      ensures Valid() && State() == Step(old(State()), DoActivate(id, expected, request))
      ensures res == Returns(old(State()), DoActivate(id, expected, request))
      ensures Inv(old(State())) ==> Inv(State())
    {
      ghost var s, op := State(), DoActivate(id, expected, request);
      StepKeeps(s, op);
      res := ChangeState(id, expected, {Created}, Active, Some(request));
    }

    method MarkUncertain(id: Id, expected: nat) returns (res: Result<Reservation, LedgerError>)
      requires Valid()
      modifies this
      ensures Valid() && State() == Step(old(State()), DoMarkUncertain(id, expected))
      ensures res == Returns(old(State()), DoMarkUncertain(id, expected))
      ensures Inv(old(State())) ==> Inv(State())
    {
      ghost var s, op := State(), DoMarkUncertain(id, expected);
      StepKeeps(s, op);
      res := ChangeState(id, expected, {Created, LedgerModel.Active}, Uncertain, None);
    }

    // ----- release -----

    /** The statements of release after its checks: what is left goes back where it came from. */
    method GiveBack(id: Id, expected: nat) returns (error: Option<LedgerError>)
      requires id in reservations && reservations[id].account in accounts && reservations[id].revision == expected
      requires reservations[id].parent != Some(id)
      modifies this
      ensures programs == old(programs)
      ensures var parent := old(reservations)[id].parent;
              var d := if parent.Some? then ReleaseToParent(old(State()), id, parent.value) else ReleaseToAccount(old(State()), id);
              match error
              case Some(e) => d == Failure(e)
              case None => d.Success? && State() == Commit(old(State()), d.value)
    {
      var r := reservations[id];
      if r.parent.Some? {
        if r.parent.value !in reservations {
          return Some(NotFound);
        }
        var parent := reservations[r.parent.value];
        var sum := AddBudgetVectors(parent.remaining, r.remaining);
        if sum.Failure? {
          return Some(BudgetOverflow);
        }
        var changed := UpdateRemaining(r.parent.value, parent.revision, sum.value);
      } else {
        var account := accounts[r.account];
        var rest := SubtractBudgetVectors(account.reserved, r.remaining);
        if rest.Failure? {
          return Some(BudgetUnderflow);
        }
        var changed := UpdateAccount(r.account, account.revision, account.spent, rest.value);
      }
      var changed := FinalizeReservation(id, r.revision, Released, map[]);
      error := None;
    }

    method Release(id: Id, expected: nat) returns (res: Result<Reservation, LedgerError>)
      requires Valid()
      modifies this
      ensures Valid() && State() == Step(old(State()), DoRelease(id, expected))
      ensures res == Returns(old(State()), DoRelease(id, expected))
      ensures Inv(old(State())) ==> Inv(State())
    {
      ghost var s, op := State(), DoRelease(id, expected);
      StepKeeps(s, op);
      if id !in reservations {
        return Failure(NotFound);
      }
      assert Linked(s, id);
      var r := reservations[id];
      if r.revision != expected {
        return Failure(Conflict);
      }
      if !Unfinished(r.state) {
        if r.state == Released {
          return Success(r);
        }
        return Failure(InvalidState);
      }
      var active := CountActiveChildren(id);
      if active > 0 {
        return Failure(ActiveChildren);
      }
      if r.account !in accounts {
        return Failure(NotFound);
      }
      var accounts0, reservations0, spends0 := accounts, reservations, spends;
      var error := GiveBack(id, expected);
      if error.Some? {
        RollBack(accounts0, reservations0, spends0);
        return Failure(error.value);
      }
      res := Success(reservations[id]);
    }

    // ----- settle -----

    /** A child returns the part of its reservation that was not used. */
    method ReturnUnused(p: Id, reserved: Vector, actual: Vector) returns (error: Option<LedgerError>)
      requires Fits(actual, reserved)
      modifies this`reservations
      ensures match error
              case Some(NotFound) => p !in old(reservations)
              case Some(BudgetOverflow) => p in old(reservations) && !AddFits(old(reservations)[p].remaining, Minus(reserved, actual))
              case Some(_) => false
              case None =>
                && p in old(reservations) && AddFits(old(reservations)[p].remaining, Minus(reserved, actual))
                && reservations == CommitParent(old(reservations), Some(Returned(p, Plus(old(reservations)[p].remaining, Minus(reserved, actual)))))
    {
      if p !in reservations {
        return Some(NotFound);
      }
      var parent := reservations[p];
      var unused := SubtractBudgetVectors(reserved, actual);
      var sum := AddBudgetVectors(parent.remaining, unused.value);
      if sum.Failure? {
        return Some(BudgetOverflow);
      }
      var changed := UpdateRemaining(p, parent.revision, sum.value);
      error := None;
    }

    /** The account pays for the usage and frees what the reservation held. */
    method ChargeAccount(id: Id, actual: Vector, freed: Vector) returns (error: Option<LedgerError>)
      requires id in accounts
      modifies this`accounts
      ensures var a := old(accounts)[id];
              match error
              case Some(BudgetOverflow) => !AddFits(a.spent, actual)
              case Some(BudgetUnderflow) => AddFits(a.spent, actual) && !Fits(freed, a.reserved)
              case Some(_) => false
              case None =>
                && AddFits(a.spent, actual) && Fits(freed, a.reserved)
                && accounts == CommitAccounts(old(accounts), Some(Balance(id, Plus(a.spent, actual), Minus(a.reserved, freed))))
    {
      var account := accounts[id];
      var spent := AddBudgetVectors(account.spent, actual);
      if spent.Failure? {
        return Some(BudgetOverflow);
      }
      var reserved := SubtractBudgetVectors(account.reserved, freed);
      if reserved.Failure? {
        return Some(BudgetUnderflow);
      }
      var changed := UpdateAccount(id, account.revision, spent.value, reserved.value);
      error := None;
    }

    /** The account pays for usage of a reservation it no longer holds anything for. */
    method ChargeLate(id: Id, actual: Vector) returns (error: Option<LedgerError>)
      requires id in accounts
      modifies this`accounts
      ensures var a := old(accounts)[id];
              match error
              case Some(BudgetOverflow) => !AddFits(a.spent, actual)
              case Some(_) => false
              case None =>
                && AddFits(a.spent, actual)
                && accounts == CommitAccounts(old(accounts), Some(Balance(id, Plus(a.spent, actual), a.reserved)))
    {
      var account := accounts[id];
      var spent := AddBudgetVectors(account.spent, actual);
      if spent.Failure? {
        return Some(BudgetOverflow);
      }
      var changed := UpdateAccount(id, account.revision, spent.value, account.reserved);
      error := None;
    }

    /** The spend event and the final state of the reservation. */
    method Record(i: SettleInput, next: ReservationState)
      requires i.reservation in reservations
      modifies this`spends, this`reservations
      ensures spends == old(spends)[i.sourceEvent := Spend(i.reservation, i.actual)]
      ensures reservations == old(reservations)[i.reservation := Finalized(old(reservations)[i.reservation], next, i.actual)]
    {
      spends := spends[i.sourceEvent := Spend(i.reservation, i.actual)];
      var changed := FinalizeReservation(i.reservation, reservations[i.reservation].revision, next, i.actual);
    }

    /** The child returns what it did not use, then the account pays for what it used. */
    method TransferChild(i: SettleInput, p: Id) returns (error: Option<LedgerError>)
      requires Settleable(State(), i) && p != i.reservation
      modifies this`accounts, this`reservations
      ensures match error
              case Some(e) => SettleChild(old(State()), i, p) == Failure(e)
              case None =>
                && SettleChild(old(State()), i, p).Success?
                && accounts == CommitAccounts(old(accounts), SettleChild(old(State()), i, p).value.balance)
                && reservations == CommitParent(old(reservations), SettleChild(old(State()), i, p).value.parent)
    {
      var r := reservations[i.reservation];
      error := ReturnUnused(p, r.reserved, i.actual);
      if error.None? {
        error := ChargeAccount(r.account, i.actual, i.actual);
      }
    }

    method ChargeChild(i: SettleInput, p: Id) returns (error: Option<LedgerError>)
      requires Settleable(State(), i) && p != i.reservation
      modifies this
      ensures programs == old(programs)
      ensures match error
              case Some(e) => SettleChild(old(State()), i, p) == Failure(e)
              case None => SettleChild(old(State()), i, p).Success? && State() == Commit(old(State()), SettleChild(old(State()), i, p).value)
    {
      error := TransferChild(i, p);
      if error.None? {
        Record(i, Settled);
      }
    }

    /** The statements of settle after its checks. */
    method Charge(i: SettleInput) returns (error: Option<LedgerError>)
      requires Settleable(State(), i) && reservations[i.reservation].parent != Some(i.reservation)
      modifies this
      ensures programs == old(programs)
      ensures var r := old(reservations)[i.reservation];
              var d := if r.state == Released then SettleLate(old(State()), i)
                       else if r.parent.Some? then SettleChild(old(State()), i, r.parent.value)
                       else SettleTop(old(State()), i);
              match error
              case Some(e) => d == Failure(e)
              case None => d.Success? && State() == Commit(old(State()), d.value)
    {
      var r := reservations[i.reservation];
      if r.state == Released {
        error := ChargeLate(r.account, i.actual);
        if error.None? {
          Record(i, Reconciled);
        }
      } else if r.parent.Some? {
        error := ChargeChild(i, r.parent.value);
      } else {
        error := ChargeAccount(r.account, i.actual, r.remaining);
        if error.None? {
          Record(i, Settled);
        }
      }
    }

    method Settle(i: SettleInput) returns (res: Result<Reservation, LedgerError>)
      requires Valid()
      modifies this
      ensures Valid() && State() == Step(old(State()), DoSettle(i))
      ensures res == Returns(old(State()), DoSettle(i))
      ensures Inv(old(State())) && SettlementDiscipline(old(State()), i) ==> Inv(State())
    {
      ghost var s, op := State(), DoSettle(i);
      StepKeeps(s, op);
      if i.sourceEvent in spends {
        var seen := spends[i.sourceEvent];
        if seen.reservation != i.reservation || seen.actual != i.actual {
          return Failure(Conflict);
        }
        if i.reservation !in reservations {
          return Failure(NotFound);
        }
        return Success(reservations[i.reservation]);
      }
      if i.reservation !in reservations {
        return Failure(NotFound);
      }
      assert Linked(s, i.reservation);
      var r := reservations[i.reservation];
      if HasUsage(r.state) {
        if r.settled != Some(i.actual) {
          return Failure(Conflict);
        }
        return Success(r);
      }
      if !Fits(i.actual, r.reserved) {
        return Failure(Exceeded);
      }
      if r.account !in accounts {
        return Failure(NotFound);
      }
      var accounts0, reservations0, spends0 := accounts, reservations, spends;
      var error := Charge(i);
      if error.Some? {
        RollBack(accounts0, reservations0, spends0);
        return Failure(error.value);
      }
      res := Success(reservations[i.reservation]);
    }
  }
}
